/** The atomic execution attestation: gate preimage, token envelope, and its verifier. */
module Attestation {
  import opened Text
  import opened Crypto

  const ATOMIC_ATTEST_V := "cr.atomic.execution.attestation.v1"
  const GATE_PREIMAGE_V := "cr.gate.preimage.v1"

  function Preimage(jti: string, deployment: string, mutation: string, target: string): string {
    Join([GATE_PREIMAGE_V, jti, deployment, "sha256:" + mutation, target], '|')
  }

  function Encode(c: Crypto, kid: string, preimage: string, signature: string): string {
    Join([ATOMIC_ATTEST_V, kid, c.b64(preimage), signature], '|')
  }

  /** What the caller expects the attestation to be about. */
  datatype Intended = Intended(jti: string, deployment: string)

  datatype Rejection = Malformed | UnknownKey | InvalidSignature | GrantJtiMismatch | DeploymentIdMismatch

  datatype Verdict =
    | Valid(kid: string, preimage: string, signature: string)
    | Invalid(why: Rejection)

  function VerifyToken(c: Crypto, token: string, publicKey: Option<Key>, intended: Intended): Verdict {
    var seg := Split(token, '|');
    if token == "" then Invalid(Malformed)
    else if |seg| != 4 || seg[0] != ATOMIC_ATTEST_V || "" in seg then Invalid(Malformed)
    else if publicKey.None? then Invalid(UnknownKey)
    else
      var preimage := c.unb64(seg[2]);
      if !c.verify(publicKey.value, preimage, seg[3]) then Invalid(InvalidSignature)
      else
        var fields := Split(preimage, '|');
        if intended.jti != "" && (|fields| < 3 || fields[0] != GATE_PREIMAGE_V || fields[1] != intended.jti)
        then Invalid(GrantJtiMismatch)
        else if intended.jti != "" && fields[2] != intended.deployment
        then Invalid(DeploymentIdMismatch)
        else Valid(seg[1], preimage, seg[3])
  }

  lemma PreimageFields(jti: string, deployment: string, mutation: string, target: string)
    requires '|' !in jti && '|' !in deployment && '|' !in mutation && '|' !in target
    ensures Split(Preimage(jti, deployment, mutation, target), '|')
         == [GATE_PREIMAGE_V, jti, deployment, "sha256:" + mutation, target]
  {
    SplitJoin([GATE_PREIMAGE_V, jti, deployment, "sha256:" + mutation, target], '|');
  }

  lemma TokenSegments(c: Crypto, key: Key, kid: string, preimage: string)
    requires Ideal(c) && '|' !in kid && preimage != ""
    ensures Split(Encode(c, kid, preimage, c.sign(key, preimage)), '|')
         == [ATOMIC_ATTEST_V, kid, c.b64(preimage), c.sign(key, preimage)]
  {
    SplitJoin([ATOMIC_ATTEST_V, kid, c.b64(preimage), c.sign(key, preimage)], '|');
  }

  /**
   * Producer and verifier agree: a token sealed over the gate preimage of (jti, deployment) verifies
   * under the signer's key exactly for that pair, and carries the preimage back unchanged.
   */
  lemma SealedVerifies(c: Crypto, key: Key, kid: string, jti: string, deployment: string, mutation: string,
                       target: string, intended: Intended)
    requires Ideal(c) && kid != "" && '|' !in kid
    requires '|' !in jti && '|' !in deployment && '|' !in mutation && '|' !in target
    requires intended.jti != ""
    ensures var p := Preimage(jti, deployment, mutation, target);
            var v := VerifyToken(c, Encode(c, kid, p, c.sign(key, p)), Some(key), intended);
            if intended == Intended(jti, deployment)
            then v == Valid(kid, p, c.sign(key, p))
            else v == Invalid(GrantJtiMismatch) || v == Invalid(DeploymentIdMismatch)
  {
    var p := Preimage(jti, deployment, mutation, target);
    PreimageFields(jti, deployment, mutation, target);
    TokenSegments(c, key, kid, p);
    assert Segment(c.b64(p)) && Segment(c.sign(key, p));
    assert "" !in [ATOMIC_ATTEST_V, kid, c.b64(p), c.sign(key, p)];
  }

  /**
   * The grant binding is skipped when the caller intends no jti: a token sealed for any grant and any
   * deployment then verifies.
   */
  lemma EmptyIntentIsUnbound(c: Crypto, key: Key, kid: string, jti: string, deployment: string, mutation: string,
                             target: string, other: string)
    requires Ideal(c) && kid != "" && '|' !in kid
    ensures var p := Preimage(jti, deployment, mutation, target);
            VerifyToken(c, Encode(c, kid, p, c.sign(key, p)), Some(key), Intended("", other)) == Valid(kid, p, c.sign(key, p))
  {
    var p := Preimage(jti, deployment, mutation, target);
    TokenSegments(c, key, kid, p);
    assert Segment(c.b64(p)) && Segment(c.sign(key, p));
    assert "" !in [ATOMIC_ATTEST_V, kid, c.b64(p), c.sign(key, p)];
  }
}
