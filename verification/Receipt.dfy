/** Chain receipts: four signing layouts that cannot be confused, key rules, and rigid chains. */
module Receipt {
  import opened Text
  import opened Crypto
  import opened Clock

  const SIGNING_PREFIX := "crchain.v1"
  const MAX_SUPPORTED_V := 4

  /** A receipt body with string-valued fields; v is not signed, it only selects the layout. */
  datatype Payload = Payload(
    v: Option<int>,
    kid: string,
    fp: string,
    prev: string,
    caller: string,
    ts: string,
    reg: string,
    ir: string,
    expiresAt: string,
    bh: string)

  /** Versions 2, 3 and 4 have their own layout; every other v, and none, is signed as version 1. */
  function Layout(p: Payload): int {
    if p.v == Some(4) then 4 else if p.v == Some(3) then 3 else if p.v == Some(2) then 2 else 1
  }

  /** The fields a layout signs, in order. */
  function Fields(p: Payload): seq<string> {
    var base := [p.kid, p.fp, p.prev, p.caller, p.ts];
    match Layout(p)
    case 4 => base + [p.reg, p.ir, p.expiresAt, p.bh]
    case 3 => base + [p.reg, p.ir]
    case 2 => base + [p.reg]
    case _ => base
  }

  function SignedInput(p: Payload): string { Join([SIGNING_PREFIX] + Fields(p), '|') }

  /** The anti-downgrade guard: no signed field of any version holds the delimiter. */
  predicate Guarded(p: Payload) {
    Free([p.kid, p.fp, p.prev, p.caller, p.ts, p.reg, p.ir, p.expiresAt, p.bh], '|')
  }

  lemma GuardedFields(p: Payload)
    requires Guarded(p)
    ensures Free([SIGNING_PREFIX] + Fields(p), '|')
  {
    var all := [p.kid, p.fp, p.prev, p.caller, p.ts, p.reg, p.ir, p.expiresAt, p.bh];
    assert '|' !in all[0] && '|' !in all[1] && '|' !in all[2] && '|' !in all[3] && '|' !in all[4];
    assert '|' !in all[5] && '|' !in all[6] && '|' !in all[7] && '|' !in all[8];
    forall i | 0 <= i < |Fields(p)| ensures '|' !in Fields(p)[i] {}
    assert forall i :: 0 < i <= |Fields(p)| ==> ([SIGNING_PREFIX] + Fields(p))[i] == Fields(p)[i - 1];
  }

  /** LAYOUTS CANNOT BE CONFUSED. Equal signed bytes mean the same layout and the same signed fields. */
  lemma LayoutsAreDistinct(p: Payload, q: Payload)
    requires Guarded(p) && Guarded(q)
    ensures SignedInput(p) == SignedInput(q) <==> Layout(p) == Layout(q) && Fields(p) == Fields(q)
  {
    GuardedFields(p);
    GuardedFields(q);
    if SignedInput(p) == SignedInput(q) {
      JoinInjective([SIGNING_PREFIX] + Fields(p), [SIGNING_PREFIX] + Fields(q), '|');
      assert ([SIGNING_PREFIX] + Fields(p))[1..] == Fields(p) && ([SIGNING_PREFIX] + Fields(q))[1..] == Fields(q);
    }
  }

  /** Without the guard a version 2 receipt reads as a version 1 receipt whose ts swallowed the next field. */
  lemma UnguardedDowngrade(p: Payload)
    requires p.v == Some(2)
    ensures SignedInput(p) == SignedInput(p.(v := Some(1), ts := p.ts + "|" + p.reg))
  {
    var q := p.(v := Some(1), ts := p.ts + "|" + p.reg);
    var head := [SIGNING_PREFIX, p.kid, p.fp, p.prev, p.caller];
    assert [SIGNING_PREFIX] + Fields(p) == head + [p.ts, p.reg];
    assert [SIGNING_PREFIX] + Fields(q) == head + [q.ts];
    JoinLast2(head, p.ts, p.reg);
  }

  lemma {:induction false} JoinLast2(head: seq<string>, a: string, b: string)
    ensures Join(head + [a, b], '|') == Join(head + [a + "|" + b], '|')
  {
    if head == [] {
      assert head + [a, b] == [a, b] && [a, b][1..] == [b] && head + [a + "|" + b] == [a + "|" + b];
      assert Join([a, b], '|') == a + ['|'] + b;
    } else {
      assert (head + [a, b])[1..] == head[1..] + [a, b];
      assert (head + [a + "|" + b])[1..] == head[1..] + [a + "|" + b];
      JoinLast2(head[1..], a, b);
    }
  }

  // ---------------------------------------------------------------- key rules

  datatype KeyState = Active | Retired | Revoked | NoStatus | OtherStatus

  /** A registry entry; revokedAt is non-empty text or not, the other dates parsed. */
  datatype KeyEntry = KeyEntry(key: Key, state: KeyState, revokedAt: bool, retiredAt: Date, compromisedAt: Date)

  datatype Status =
    | Malformed
    | UnknownKey
    | InvalidSignature
    | UnsupportedVersion
    | UnknownKeyStatus
    | KeyRevoked
    | KeyRetiredAfterSigning
    | RevokedKey
    | RevokedKeyUndecidable
    | RetiredKeyValidAtIssue
    | VerifiedExpired
    | VerifiedWrongAudience
    | VerifiedWrongEnvironment
    | VerifiedCurrent

  /** A supplied envelope: its canonical body hash and its two dormant fields. */
  datatype Envelope = Envelope(bodyHash: string, audience: Option<string>, environment: Option<string>)

  datatype Options = Options(now: int, envelope: Option<Envelope>, audience: Option<string>, environment: Option<string>)

  /** Date.parse, and decoding of a token's first segment. */
  datatype Decoders = Decoders(date: string -> Date, body: string -> Option<Payload>)

  predicate Disagrees(expected: Option<string>, actual: Option<string>) {
    expected.Some? && actual.Some? && expected != actual
  }

  function DeriveStatus(d: Decoders, p: Payload, e: KeyEntry, o: Options): Status {
    var issued := if p.ts == "" then Unparseable else d.date(p.ts);
    if p.v.Some? && p.v.value > MAX_SUPPORTED_V then UnsupportedVersion
    else if e.state == OtherStatus then UnknownKeyStatus
    else if e.revokedAt then KeyRevoked
    else if issued.At? && e.retiredAt.At? && issued.ms >= e.retiredAt.ms then KeyRetiredAfterSigning
    else if e.state == Revoked then
      if e.compromisedAt.At? && issued.At? && issued.ms >= e.compromisedAt.ms then RevokedKey else RevokedKeyUndecidable
    else if e.state == Retired then
      if issued.At? && e.retiredAt.At? && issued.ms < e.retiredAt.ms then RetiredKeyValidAtIssue else InvalidSignature
    else if p.v == Some(4) && d.date(p.expiresAt).At? && IsExpiredAt(d.date(p.expiresAt).ms, o.now) then VerifiedExpired
    else if o.envelope.Some? && Disagrees(o.audience, o.envelope.value.audience) then VerifiedWrongAudience
    else if o.envelope.Some? && Disagrees(o.environment, o.envelope.value.environment) then VerifiedWrongEnvironment
    else VerifiedCurrent
  }

  datatype Verdict = Verdict(valid: bool, status: Status, payload: Option<Payload>)

  function Reject(status: Status, payload: Option<Payload>): Verdict { Verdict(false, status, payload) }

  /** keyring maps each accepted kid to its entry. */
  function VerifyReceipt(c: Crypto, d: Decoders, keyring: map<string, KeyEntry>, token: string, o: Options): Verdict {
    var seg := Split(token, '.');
    if token == "" || |seg| != 2 || "" in seg then Reject(Malformed, None)
    else
      var body := d.body(c.unb64(seg[0]));
      if body.None? then Reject(Malformed, None)
      else
        var p := body.value;
        if p.kid !in keyring then Reject(UnknownKey, body)
        else if !c.verify(keyring[p.kid].key, SignedInput(p), seg[1]) then Reject(InvalidSignature, body)
        else if !Guarded(p) then Reject(InvalidSignature, body)
        else if o.envelope.Some? && p.v == Some(4) && o.envelope.value.bodyHash != p.bh then Reject(InvalidSignature, body)
        else
          var status := DeriveStatus(d, p, keyring[p.kid], o);
          Verdict(status == VerifiedCurrent || status == RetiredKeyValidAtIssue, status, body)
  }

  /** The key signed, under this prefix, only inputs of receipts it issued. */
  ghost predicate SignsOnlyIssued(c: Crypto, key: Key, issued: set<Payload>) {
    forall message, sig :: c.verify(key, message, sig) && StartsWith(message, SIGNING_PREFIX + "|") ==>
      exists q :: q in issued && Guarded(q) && message == SignedInput(q)
  }

  lemma InputStarts(p: Payload)
    ensures StartsWith(SignedInput(p), SIGNING_PREFIX + "|")
  {
    assert ([SIGNING_PREFIX] + Fields(p))[1..] == Fields(p);
    assert SignedInput(p) == SIGNING_PREFIX + "|" + Join(Fields(p), '|');
  }

  /**
   * A valid receipt is an issued one, layout and signed fields alike, under a key that is not revoked
   * (whatever its dates), not used after its retirement, and of a status the verifier knows.
   */
  lemma ValidReceiptWasIssued(c: Crypto, d: Decoders, keyring: map<string, KeyEntry>, token: string, o: Options,
                              issued: set<Payload>) returns (q: Payload)
    requires var r := VerifyReceipt(c, d, keyring, token, o);
             r.valid && SignsOnlyIssued(c, keyring[r.payload.value.kid].key, issued)
    ensures var p := VerifyReceipt(c, d, keyring, token, o).payload.value;
            var e := keyring[p.kid];
            && q in issued && Layout(q) == Layout(p) && Fields(q) == Fields(p)
            && !e.revokedAt && e.state !in {Revoked, OtherStatus}
            && (e.state == Retired ==> d.date(p.ts).At? && e.retiredAt.At? && d.date(p.ts).ms < e.retiredAt.ms)
            && (o.envelope.Some? && p.v == Some(4) ==> o.envelope.value.bodyHash == p.bh)
  {
    var p := VerifyReceipt(c, d, keyring, token, o).payload.value;
    InputStarts(p);
    q :| q in issued && Guarded(q) && SignedInput(p) == SignedInput(q);
    LayoutsAreDistinct(p, q);
  }

  // ---------------------------------------------------------------- chains

  datatype Role = Genesis | Continuation

  /** prevOk is null for a first token that continues a chain we do not hold. */
  datatype Link = Link(signatureValid: bool, prevOk: Option<bool>)

  function LinkOf(c: Crypto, tokens: seq<string>, i: nat, v: Verdict): Link
    requires i < |tokens|
  {
    if i == 0 then Link(v.valid, if v.payload.Some? && v.payload.value.prev == "null" then Some(true) else None)
    else Link(v.valid, Some(v.payload.Some? && v.payload.value.prev == Sha256Pref(c, tokens[i - 1])))
  }

  /** Every receipt valid, every later one linked to the bytes before it. */
  predicate ChainHolds(c: Crypto, tokens: seq<string>, verify: string -> Verdict) {
    forall i :: 0 <= i < |tokens| ==> verify(tokens[i]).valid && (i > 0 ==> LinkOf(c, tokens, i, verify(tokens[i])).prevOk == Some(true))
  }

  method VerifyChain(c: Crypto, tokens: seq<string>, verify: string -> Verdict)
    returns (valid: bool, first: Option<Role>, links: seq<Link>)
    ensures valid <==> ChainHolds(c, tokens, verify)
    ensures |links| == |tokens| && forall i :: 0 <= i < |links| ==> links[i] == LinkOf(c, tokens, i, verify(tokens[i]))
    ensures first.None? <==> tokens == []
    ensures first == Some(Genesis) <==> tokens != [] && verify(tokens[0]).payload.Some? && verify(tokens[0]).payload.value.prev == "null"
  {
    valid, first, links := true, None, [];
    for i := 0 to |tokens|
      invariant |links| == i && forall k :: 0 <= k < i ==> links[k] == LinkOf(c, tokens, k, verify(tokens[k]))
      invariant valid <==> forall k :: 0 <= k < i ==> verify(tokens[k]).valid && (k > 0 ==> links[k].prevOk == Some(true))
      invariant first.None? <==> i == 0
      invariant first == Some(Genesis) <==>
        i > 0 && verify(tokens[0]).payload.Some? && verify(tokens[0]).payload.value.prev == "null"
    {
      var r := verify(tokens[i]);
      var prevOk;
      if i == 0 {
        var genesis := r.payload.Some? && r.payload.value.prev == "null";
        first := Some(if genesis then Genesis else Continuation);
        prevOk := if genesis then Some(true) else None;
      } else {
        prevOk := Some(r.payload.Some? && r.payload.value.prev == Sha256Pref(c, tokens[i - 1]));
        if prevOk == Some(false) { valid := false; }
      }
      if !r.valid { valid := false; }
      links := links + [Link(r.valid, prevOk)];
    }
  }

  /** An accepted chain that starts at a genesis receipt. */
  predicate Rooted(c: Crypto, tokens: seq<string>, verify: string -> Verdict) {
    && tokens != [] && ChainHolds(c, tokens, verify)
    && verify(tokens[0]).payload.Some? && verify(tokens[0]).payload.value.prev == "null"
  }

  lemma RootedPrefix(c: Crypto, tokens: seq<string>, verify: string -> Verdict)
    requires Rooted(c, tokens, verify) && |tokens| > 1
    ensures Rooted(c, tokens[..|tokens| - 1], verify)
  {
    var init := tokens[..|tokens| - 1];
    forall i | 0 <= i < |init|
      ensures verify(init[i]).valid && (i > 0 ==> LinkOf(c, init, i, verify(init[i])).prevOk == Some(true))
    {
      assert LinkOf(c, tokens, i, verify(tokens[i])) == LinkOf(c, init, i, verify(init[i]));
    }
  }

  /** The last link of a rooted chain: genesis, or the digest of the token before it. */
  lemma LastLink(c: Crypto, tokens: seq<string>, verify: string -> Verdict)
    requires Rooted(c, tokens, verify)
    ensures var last := verify(tokens[|tokens| - 1]);
            && last.payload.Some?
            && (if |tokens| == 1 then last.payload.value.prev == "null"
                else last.payload.value.prev == Sha256Pref(c, tokens[|tokens| - 2]) && last.payload.value.prev != "null")
  {
    var n := |tokens| - 1;
    if n > 0 {
      assert LinkOf(c, tokens, n, verify(tokens[n])).prevOk == Some(true);
      assert Sha256Pref(c, tokens[n - 1])[0] == 's';
    }
  }

  /** Rooted chains that end in the same token are both that token alone, or agree one token earlier. */
  lemma EarlierTokens(c: Crypto, a: seq<string>, b: seq<string>, verify: string -> Verdict)
    requires IdealHash(c) && Rooted(c, a, verify) && Rooted(c, b, verify)
    requires a[|a| - 1] == b[|b| - 1]
    ensures |a| == 1 <==> |b| == 1
    ensures |a| > 1 ==> a[|a| - 2] == b[|b| - 2]
  {
    LastLink(c, a, verify);
    LastLink(c, b, verify);
    if |a| > 1 && |b| > 1 { DigestInjective(c, a[|a| - 2], b[|b| - 2]); }
  }

  /** Chains that agree before the last token and in it. */
  lemma SameToTheEnd(a: seq<string>, b: seq<string>)
    requires |a| > 0 && |b| > 0 && a[..|a| - 1] == b[..|b| - 1] && a[|a| - 1] == b[|b| - 1]
    ensures a == b
  {
    assert a == a[..|a| - 1] + [a[|a| - 1]] && b == b[..|b| - 1] + [b[|b| - 1]];
  }

  /**
   * CHAINS ARE RIGID. Two accepted chains from genesis that end in the same token are the same chain,
   * token for token, length included.
   */
  lemma {:induction false} ChainsAreRigid(c: Crypto, a: seq<string>, b: seq<string>, verify: string -> Verdict)
    requires IdealHash(c) && Rooted(c, a, verify) && Rooted(c, b, verify)
    requires a[|a| - 1] == b[|b| - 1]
    ensures a == b
    decreases |a|
  {
    EarlierTokens(c, a, b, verify);
    if |a| == 1 {
      assert a == [a[0]] && b == [b[0]];
    } else {
      RootedPrefix(c, a, verify);
      RootedPrefix(c, b, verify);
      ChainsAreRigid(c, a[..|a| - 1], b[..|b| - 1], verify);
      SameToTheEnd(a, b);
    }
  }
}
