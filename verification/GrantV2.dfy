/** Version 2 execution grants: a signature over the whole body, and every binding compared exactly. */
module GrantV2 {
  import opened Text
  import opened Crypto
  import Clock
  import opened Json
  import opened JsonCanon
  import Grant

  const REQUIRED: seq<string> := [
    "v", "kid", "grant_id", "receipt_hash", "tenant_id", "executor_id", "adapter_id", "operation", "target_uri",
    "expected_state_token", "after_payload_hash", "nonce_hash", "policy_hash", "audience_hash", "not_before", "expires_at"]

  /** Admitted, and read as nothing. */
  const RESERVED: seq<string> := ["call_hash", "executor_image_digest", "applied_policy_hash"]

  const MAX_ATTEMPTS := "max_attempts"

  /** A registry entry; a status other than "retired" and "revoked" is never looked at. */
  datatype KeyEntry = KeyEntry(key: Key, status: Option<string>)

  /** What the caller is about to do; "" stands for a value it does not supply. */
  datatype Intended = Intended(
    executorId: string,
    adapterId: string,
    targetUri: string,
    audience: string,
    audienceHash: string,
    afterPayload: Option<string>,
    operation: string,
    receiptToken: string)

  datatype Reason =
    | MissingField
    | BadMaxAttempts
    | UnknownField
    | BadTargetUri
    | BadTimestamp

  datatype Binding = Executor | Adapter | Target | Audience | AfterPayload | Operation | ReceiptHash

  datatype Status =
    | GrantCurrent
    | Malformed(reason: Reason)
    | UnknownKey
    | InvalidSignature
    | GrantExpired
    | GrantUnbound(what: Binding)

  // ---------------------------------------------------------------- the body

  predicate HasText(body: Json, key: string) { At(body, key).Str? && At(body, key).s != "" }

  predicate AllTexts(body: Json) { forall k :: 0 <= k < |REQUIRED| ==> HasText(body, REQUIRED[k]) }

  /** The text of a required member, once all are known to be there. */
  function TextOf(body: Json, key: string): string { if At(body, key).Str? then At(body, key).s else "" }

  /** `Number.isInteger(n) && n >= 1`. */
  predicate PositiveInteger(v: Json) { v.Num? && v.x.Finite? && !v.x.negative && |v.x.digits| <= v.x.n }

  predicate OnlyKnownFields(body: Json)
    requires body.Obj?
  {
    forall i :: 0 <= i < |body.fields| ==> body.fields[i].key in REQUIRED + [MAX_ATTEMPTS] + RESERVED
  }

  function BodyDefect(body: Json): Option<Reason>
    requires body.Obj?
  {
    if !AllTexts(body) then Some(MissingField)
    else if !PositiveInteger(At(body, MAX_ATTEMPTS)) then Some(BadMaxAttempts)
    else if !OnlyKnownFields(body) then Some(UnknownField)
    else if Grant.CanonicalizeTargetUri(TextOf(body, "target_uri")).None? then Some(BadTargetUri)
    else None
  }

  // ---------------------------------------------------------------- the bindings

  /** The canonical form of the intended target where it has one, else the text itself. */
  function WantedTarget(want: Intended): string {
    var u := Grant.CanonicalizeTargetUri(want.targetUri);
    if u.Some? then u.value else want.targetUri
  }

  /** The first intended value the body does not carry. */
  function Unbound(c: Crypto, body: Json, want: Intended): Option<Binding> {
    if want.executorId != "" && TextOf(body, "executor_id") != want.executorId then Some(Executor)
    else if want.adapterId != "" && TextOf(body, "adapter_id") != want.adapterId then Some(Adapter)
    else if want.targetUri != "" && TextOf(body, "target_uri") != WantedTarget(want) then Some(Target)
    else if want.audience != "" && TextOf(body, "audience_hash") != Sha256Pref(c, want.audience) then Some(Audience)
    else if want.audienceHash != "" && TextOf(body, "audience_hash") != want.audienceHash then Some(Audience)
    else if want.afterPayload.Some? && TextOf(body, "after_payload_hash") != Sha256Pref(c, want.afterPayload.value)
    then Some(AfterPayload)
    else if want.operation != "" && TextOf(body, "operation") != want.operation then Some(Operation)
    else if want.receiptToken != "" && Sha256Pref(c, want.receiptToken) != TextOf(body, "receipt_hash")
    then Some(ReceiptHash)
    else None
  }

  /** The whole body is signed; a body that cannot be printed makes the check throw, which refuses it. */
  predicate SignatureHolds(c: Crypto, key: Key, body: Json, sig: string) {
    Printable(body) && c.verify(key, Grant.SigningInputV2(Canon(body)), sig)
  }

  predicate KeyRefused(entry: Option<KeyEntry>) {
    entry.None? || entry.value.status in [Some("retired"), Some("revoked")]
  }

  function OutsideWindow(expires: Clock.Date, notBefore: Clock.Date, now: int): Option<Status> {
    if !expires.At? || !notBefore.At? then Some(Malformed(BadTimestamp))
    else if Clock.IsExpiredAt(expires.ms, now) || notBefore.ms > now + Clock.CLOCK_SKEW_LEEWAY_MS then Some(GrantExpired)
    else None
  }

  /** The first failing stage, in the order the stages are tried. */
  function Decide(defect: Option<Reason>, keyRefused: bool, signed: bool, late: Option<Status>, unbound: Option<Binding>)
    : Status
  {
    if defect.Some? then Malformed(defect.value)
    else if keyRefused then UnknownKey
    else if !signed then InvalidSignature
    else if late.Some? then late.value
    else if unbound.Some? then GrantUnbound(unbound.value)
    else GrantCurrent
  }

  function VerifyGrantV2(c: Crypto, date: string -> Clock.Date, entry: Option<KeyEntry>, body: Json, sig: string, now: int,
                         want: Intended): Status
    requires body.Obj?
  {
    Decide(BodyDefect(body), KeyRefused(entry), entry.Some? && SignatureHolds(c, entry.value.key, body, sig),
           OutsideWindow(date(TextOf(body, "expires_at")), date(TextOf(body, "not_before")), now),
           Unbound(c, body, want))
  }

  // ---------------------------------------------------------------- what acceptance proves

  /** The issuer's key signed, under the v2 prefix, only bodies of the grants it issued. */
  ghost predicate SignsOnlyIssued(c: Crypto, key: Key, issued: set<Json>) {
    forall text, sig :: c.verify(key, Grant.SigningInputV2(text), sig) ==>
      exists b :: b in issued && b.Obj? && Printable(b) && text == Canon(b)
  }

  /** Equal objects carry the same texts. */
  lemma SameText(a: Json, b: Json, key: string)
    requires a.Obj? && b.Obj? && Printable(a) && Printable(b) && Equiv(a, b) && At(a, key).Str?
    ensures At(b, key) == At(a, key)
  {
    var i := MemberIndex(a.fields, key);
    EquivAt(a, b, i);
  }

  lemma {:induction false} MemberIndex(fields: seq<Field>, key: string) returns (i: nat)
    requires MemberAt(fields, key) != Undefined
    ensures i < |fields| && fields[i].key == key && fields[i].value == MemberAt(fields, key)
  {
    if fields[0].key == key {
      i := 0;
    } else {
      i := MemberIndex(fields[1..], key);
      i := i + 1;
    }
  }

  /** The issued body carries these texts, each for its purpose. */
  predicate Carries(c: Crypto, b: Json, want: Intended) {
    && (want.executorId != "" ==> At(b, "executor_id") == Str(want.executorId))
    && (want.adapterId != "" ==> At(b, "adapter_id") == Str(want.adapterId))
    && (want.targetUri != "" ==> At(b, "target_uri") == Str(WantedTarget(want)))
    && (want.audience != "" ==> At(b, "audience_hash") == Str(Sha256Pref(c, want.audience)))
    && (want.audienceHash != "" ==> At(b, "audience_hash") == Str(want.audienceHash))
    && (want.afterPayload.Some? ==> At(b, "after_payload_hash") == Str(Sha256Pref(c, want.afterPayload.value)))
    && (want.operation != "" ==> At(b, "operation") == Str(want.operation))
    && (want.receiptToken != "" ==> At(b, "receipt_hash") == Str(Sha256Pref(c, want.receiptToken)))
  }

  /** The issuer meant this audience, payload and receipt. */
  predicate MeantFor(c: Crypto, b: Json, audience: string, payload: string, receipt: string) {
    && At(b, "audience_hash") == Str(Sha256Pref(c, audience))
    && At(b, "after_payload_hash") == Str(Sha256Pref(c, payload))
    && At(b, "receipt_hash") == Str(Sha256Pref(c, receipt))
  }

  lemma {:induction false} RequiredText(a: Json, b: Json, k: nat)
    requires a.Obj? && b.Obj? && Printable(a) && Printable(b) && Equiv(a, b) && AllTexts(a) && k < |REQUIRED|
    ensures At(b, REQUIRED[k]) == Str(TextOf(a, REQUIRED[k]))
  {
    assert HasText(a, REQUIRED[k]);
    SameText(a, b, REQUIRED[k]);
  }

  lemma IssuedSays(a: Json, b: Json)
    requires a.Obj? && b.Obj? && Printable(a) && Printable(b) && Equiv(a, b) && AllTexts(a)
    ensures forall key :: key in REQUIRED ==> At(b, key) == Str(TextOf(a, key))
  {
    forall key | key in REQUIRED ensures At(b, key) == Str(TextOf(a, key)) {
      var k :| 0 <= k < |REQUIRED| && REQUIRED[k] == key;
      RequiredText(a, b, k);
    }
  }

  /** The time is inside the body's window, give or take the leeway. */
  predicate InWindow(date: string -> Clock.Date, b: Json, now: int) {
    && At(b, "expires_at").Str? && date(At(b, "expires_at").s).At?
    && now <= date(At(b, "expires_at").s).ms + Clock.CLOCK_SKEW_LEEWAY_MS
    && At(b, "not_before").Str? && date(At(b, "not_before").s).At?
    && date(At(b, "not_before").s).ms <= now + Clock.CLOCK_SKEW_LEEWAY_MS
  }

  lemma IssuedWindow(date: string -> Clock.Date, a: Json, b: Json, now: int)
    requires forall key :: key in REQUIRED ==> At(b, key) == Str(TextOf(a, key))
    requires OutsideWindow(date(TextOf(a, "expires_at")), date(TextOf(a, "not_before")), now).None?
    ensures InWindow(date, b, now)
  {
    assert REQUIRED[14] == "not_before" && REQUIRED[15] == "expires_at";
  }

  lemma BoundCarries(c: Crypto, a: Json, b: Json, want: Intended)
    requires forall key :: key in REQUIRED ==> At(b, key) == Str(TextOf(a, key))
    requires Unbound(c, a, want).None?
    ensures Carries(c, b, want)
  {
    assert REQUIRED[3] == "receipt_hash" && REQUIRED[5] == "executor_id" && REQUIRED[6] == "adapter_id";
    assert REQUIRED[7] == "operation" && REQUIRED[8] == "target_uri";
    assert REQUIRED[10] == "after_payload_hash" && REQUIRED[13] == "audience_hash";
  }

  /** What the caller supplied, where it did, is this. */
  predicate HandIs(want: Intended, audience: string, payload: string, receipt: string) {
    && (want.audience != "" ==> want.audience == audience)
    && (want.receiptToken != "" ==> want.receiptToken == receipt)
    && (want.afterPayload.Some? ==> want.afterPayload.value == payload)
  }

  /** Matching digests mean matching texts. */
  lemma CarriedIsMeant(c: Crypto, b: Json, want: Intended, audience: string, payload: string, receipt: string)
    requires IdealHash(c) && Carries(c, b, want) && MeantFor(c, b, audience, payload, receipt)
    ensures HandIs(want, audience, payload, receipt)
  {
    if want.audience != "" { DigestInjective(c, want.audience, audience); }
    if want.afterPayload.Some? { DigestInjective(c, want.afterPayload.value, payload); }
    if want.receiptToken != "" { DigestInjective(c, want.receiptToken, receipt); }
  }

  /** The body that was issued: the one whose text was signed. */
  lemma IssuedBody(c: Crypto, key: Key, body: Json, sig: string, issued: set<Json>) returns (b: Json)
    requires SignsOnlyIssued(c, key, issued) && SignatureHolds(c, key, body, sig)
    ensures b in issued && b.Obj? && Printable(b) && Equiv(body, b)
  {
    b :| b in issued && b.Obj? && Printable(b) && Canon(body) == Canon(b);
    CanonicalJsonIsExact(body, b);
  }

  /**
   * A CURRENT VERSION 2 GRANT AUTHORIZES THIS CALL. GRANT_CURRENT means the issuer issued a grant with
   * this very body, member order aside, that the key is neither retired nor revoked, that the time is
   * inside the body's window, and that the body carries every intended value; so whatever audience,
   * payload and receipt the issuer meant are the ones at hand.
   */
  lemma CurrentMeansAuthorized(c: Crypto, date: string -> Clock.Date, entry: KeyEntry, body: Json, sig: string, now: int,
                               want: Intended, issued: set<Json>) returns (b: Json)
    requires IdealHash(c) && body.Obj? && SignsOnlyIssued(c, entry.key, issued)
    requires VerifyGrantV2(c, date, Some(entry), body, sig, now, want) == GrantCurrent
    ensures b in issued && b.Obj? && Printable(b) && Printable(body) && Equiv(body, b)
    ensures entry.status != Some("retired") && entry.status != Some("revoked")
    ensures InWindow(date, b, now) && Carries(c, b, want)
    ensures forall audience, payload, receipt :: MeantFor(c, b, audience, payload, receipt) ==>
              HandIs(want, audience, payload, receipt)
  {
    CurrentFacts(c, date, entry, body, sig, now, want);
    NoDefect(body);
    b := IssuedBody(c, entry.key, body, sig, issued);
    IssuedSays(body, b);
    IssuedWindow(date, body, b, now);
    BoundCarries(c, body, b, want);
    CarriedIsMeantAlways(c, b, want);
  }

  /** GRANT_CURRENT means no stage failed. */
  lemma DecideCurrent(defect: Option<Reason>, keyRefused: bool, signed: bool, late: Option<Status>, unbound: Option<Binding>)
    requires late != Some(GrantCurrent) && Decide(defect, keyRefused, signed, late, unbound) == GrantCurrent
    ensures defect.None? && !keyRefused && signed && late.None? && unbound.None?
  {
  }

  lemma CurrentFacts(c: Crypto, date: string -> Clock.Date, entry: KeyEntry, body: Json, sig: string, now: int, want: Intended)
    requires body.Obj? && VerifyGrantV2(c, date, Some(entry), body, sig, now, want) == GrantCurrent
    ensures BodyDefect(body).None? && !KeyRefused(Some(entry)) && SignatureHolds(c, entry.key, body, sig)
    ensures OutsideWindow(date(TextOf(body, "expires_at")), date(TextOf(body, "not_before")), now).None?
    ensures Unbound(c, body, want).None?
  {
    DecideCurrent(BodyDefect(body), KeyRefused(Some(entry)), SignatureHolds(c, entry.key, body, sig),
                  OutsideWindow(date(TextOf(body, "expires_at")), date(TextOf(body, "not_before")), now),
                  Unbound(c, body, want));
  }

  lemma NoDefect(body: Json)
    requires body.Obj? && BodyDefect(body).None?
    ensures AllTexts(body)
  {
  }

  lemma CarriedIsMeantAlways(c: Crypto, b: Json, want: Intended)
    requires IdealHash(c) && Carries(c, b, want)
    ensures forall audience, payload, receipt :: MeantFor(c, b, audience, payload, receipt) ==>
              HandIs(want, audience, payload, receipt)
  {
    forall audience, payload, receipt | MeantFor(c, b, audience, payload, receipt)
      ensures HandIs(want, audience, payload, receipt)
    {
      CarriedIsMeant(c, b, want, audience, payload, receipt);
    }
  }

  /**
   * Only the two named statuses stop a version 2 grant: under any other one it is graded as under no
   * status at all, where version 1 answers UNKNOWN_KEY.
   */
  lemma OtherStatusIsIgnored(c: Crypto, date: string -> Clock.Date, key: Key, status: string, body: Json, sig: string, now: int,
                             want: Intended, p: Grant.Payload, pSig: string, pWant: Grant.Intended)
    requires body.Obj? && status !in ["retired", "revoked"] && Grant.Guarded(p)
    ensures VerifyGrantV2(c, date, Some(KeyEntry(key, Some(status))), body, sig, now, want)
         == VerifyGrantV2(c, date, Some(KeyEntry(key, None)), body, sig, now, want)
    ensures Grant.VerifyGrant(c, date, Some(Grant.KeyEntry(key, false)), p, pSig, now, pWant) == Grant.UnknownKey
  {
  }
}
