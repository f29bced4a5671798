/** Execution grants: the exact kernel of their signing inputs, and what an accepted grant proves. */
module Grant {
  import opened Text
  import opened Crypto
  import opened Json
  import opened JsonCanon
  import opened Clock

  const SIGNING_PREFIX := "crexec.v1"
  const SIGNING_PREFIX_V2 := "crexec.v2"

  /** A v1 payload that passed the structure check: nine strings, two optional ones. */
  datatype Payload = Payload(
    kid: string,
    receiptDigest: string,
    scopeHash: string,
    audience: string,
    operation: string,
    targetId: string,
    jti: string,
    iat: string,
    exp: string,
    stateNonce: Option<string>,
    deploymentId: Option<string>)

  function NineFields(p: Payload): seq<string> {
    [p.kid, p.receiptDigest, p.scopeHash, p.audience, p.operation, p.targetId, p.jti, p.iat, p.exp]
  }

  /** The two optional fields in signing order. */
  function OptionalFields(p: Payload): seq<Option<string>> { [p.stateNonce, p.deploymentId] }

  /** Those that are present and non-empty: presence, not declaration, decides the slot. */
  function NonEmpty(fields: seq<Option<string>>): seq<string> {
    if fields == [] then []
    else (if fields[0].Some? && fields[0].value != "" then [fields[0].value] else []) + NonEmpty(fields[1..])
  }

  function Optionals(p: Payload): seq<string> { NonEmpty(OptionalFields(p)) }

  function SignedInput(p: Payload): string { Join([SIGNING_PREFIX] + NineFields(p) + Optionals(p), '|') }

  lemma {:induction false} NonEmptyTake(fields: seq<Option<string>>, i: nat)
    requires i < |fields|
    ensures NonEmpty(fields[..i + 1])
         == NonEmpty(fields[..i]) + (if fields[i].Some? && fields[i].value != "" then [fields[i].value] else [])
  {
    assert fields[..i + 1][1..] == fields[1..][..i];
    if i > 0 {
      assert fields[..i][1..] == fields[1..][..i - 1];
      NonEmptyTake(fields[1..], i - 1);
    }
  }

  /** reconstructSignedInput's loop over the optional fields. */
  method ReconstructSignedInput(p: Payload) returns (input: string)
    ensures input == SignedInput(p)
  {
    var parts := [SIGNING_PREFIX] + NineFields(p);
    ghost var fixed := parts;
    var optional := OptionalFields(p);
    for i := 0 to |optional|
      invariant parts == fixed + NonEmpty(optional[..i])
    {
      NonEmptyTake(optional, i);
      if optional[i].Some? && optional[i].value != "" { parts := parts + [optional[i].value]; }
    }
    assert optional[..|optional|] == optional;
    input := Join(parts, '|');
  }

  /** The delimiter guard covers the nine fields only. */
  predicate Guarded(p: Payload) { Free(NineFields(p), '|') }

  // ---------------------------------------------------------------- the kernel

  /** The bytes after the nine fields: nothing, or the joined optional values. */
  function Tail(p: Payload): Option<string> {
    if Optionals(p) == [] then None else Some(Join(Optionals(p), '|'))
  }

  function Head(p: Payload): seq<string> { [SIGNING_PREFIX] + NineFields(p) }

  lemma {:induction false} JoinAppend(a: seq<string>, b: seq<string>, d: char)
    requires |a| >= 1 && |b| >= 1
    ensures Join(a + b, d) == Join(a, d) + [d] + Join(b, d)
  {
    if |a| == 1 {
      assert (a + b)[1..] == b;
    } else {
      JoinAppend(a[1..], b, d);
      assert (a + b)[1..] == a[1..] + b;
      Reassociate(a[0] + [d], Join(a[1..], d), [d], Join(b, d));
    }
  }

  lemma SplitInput(p: Payload)
    requires Guarded(p)
    ensures Split(SignedInput(p), '|') == Head(p) + (if Tail(p).Some? then Split(Tail(p).value, '|') else [])
  {
    assert Free(Head(p), '|') by {
      assert forall i :: 0 <= i < |NineFields(p)| ==> Head(p)[i + 1] == NineFields(p)[i];
    }
    if Optionals(p) == [] {
      assert Head(p) + Optionals(p) == Head(p);
      SplitJoin(Head(p), '|');
    } else {
      JoinAppend(Head(p), Optionals(p), '|');
      SplitAppend(Head(p), Join(Optionals(p), '|'), '|');
    }
  }

  /**
   * THE EXACT KERNEL. Two guarded v1 payloads have the same signing input if and only if the nine fields
   * agree and the joined optional values agree.
   */
  lemma KernelIsExact(p: Payload, q: Payload)
    requires Guarded(p) && Guarded(q)
    ensures SignedInput(p) == SignedInput(q) <==> NineFields(p) == NineFields(q) && Tail(p) == Tail(q)
  {
    SplitInput(p);
    SplitInput(q);
    if SignedInput(p) == SignedInput(q) {
      var a, b := Split(SignedInput(p), '|'), Split(SignedInput(q), '|');
      assert |Head(p)| == |Head(q)| == 10 && a[..10] == Head(p) && b[..10] == Head(q);
      assert Head(p)[1..] == NineFields(p) && Head(q)[1..] == NineFields(q);
      assert a[10..] == (if Tail(p).Some? then Split(Tail(p).value, '|') else []);
      assert b[10..] == (if Tail(q).Some? then Split(Tail(q).value, '|') else []);
      if Tail(p).Some? { JoinSplit(Tail(p).value, '|'); }
      if Tail(q).Some? { JoinSplit(Tail(q).value, '|'); }
    }
    if NineFields(p) == NineFields(q) && Tail(p) == Tail(q) && Tail(p).Some? {
      JoinAppend(Head(p), Optionals(p), '|');
      JoinAppend(Head(q), Optionals(q), '|');
    }
  }

  predicate OptionalsFree(p: Payload) { Free(Optionals(p), '|') }

  /** With delimiter-free optional values, that is: the sequences of non-empty optional values agree. */
  lemma KernelWithFreeOptionals(p: Payload, q: Payload)
    requires Guarded(p) && Guarded(q) && OptionalsFree(p) && OptionalsFree(q)
    ensures SignedInput(p) == SignedInput(q) <==> NineFields(p) == NineFields(q) && Optionals(p) == Optionals(q)
  {
    KernelIsExact(p, q);
    if Tail(p).Some? && Tail(p) == Tail(q) { JoinInjective(Optionals(p), Optionals(q), '|'); }
  }

  /** A lone optional value does not record its slot. */
  lemma LoneOptionalHasNoSlot(p: Payload, value: string)
    requires value != ""
    ensures SignedInput(p.(stateNonce := Some(value), deploymentId := None))
         == SignedInput(p.(stateNonce := None, deploymentId := Some(value)))
  {
    var a := p.(stateNonce := Some(value), deploymentId := None);
    var b := p.(stateNonce := None, deploymentId := Some(value));
    assert NonEmpty([a.deploymentId]) == [] && NonEmpty([b.deploymentId]) == [value];
    assert OptionalFields(a)[1..] == [a.deploymentId] && OptionalFields(b)[1..] == [b.deploymentId];
    assert Optionals(a) == [value] && Optionals(b) == [value];
    assert NineFields(a) == NineFields(b);
  }

  /** The optional fields are not guarded, so one value can read as two. */
  lemma UnguardedOptionalSplits(p: Payload, x: string, y: string)
    requires x != "" && y != ""
    ensures SignedInput(p.(stateNonce := Some(x), deploymentId := Some(y)))
         == SignedInput(p.(stateNonce := Some(x + "|" + y), deploymentId := None))
  {
    var a := p.(stateNonce := Some(x), deploymentId := Some(y));
    var b := p.(stateNonce := Some(x + "|" + y), deploymentId := None);
    assert OptionalFields(a)[1..] == [a.deploymentId] && OptionalFields(b)[1..] == [b.deploymentId];
    assert NonEmpty([a.deploymentId]) == [y] && NonEmpty([b.deploymentId]) == [];
    assert Optionals(a) == [x, y] && Optionals(b) == [x + "|" + y];
    assert NineFields(a) == NineFields(b) && Head(a) == Head(b);
    assert Join([x, y], '|') == x + ['|'] + y;
    JoinAppend(Head(a), Optionals(a), '|');
    JoinAppend(Head(b), Optionals(b), '|');
  }

  // ---------------------------------------------------------------- v2

  function SigningInputV2(text: string): string { SIGNING_PREFIX_V2 + "|" + text }

  lemma VersionsNeverCollide(p: Payload, text: string)
    ensures SignedInput(p) != SigningInputV2(text)
  {
    var rest := NineFields(p) + Optionals(p);
    assert Head(p) + Optionals(p) == [SIGNING_PREFIX] + rest;
    JoinAppend([SIGNING_PREFIX], rest, '|');
    assert SignedInput(p)[8] == '1' && SigningInputV2(text)[8] == '2';
  }

  /** A v2 signature covers the whole body: equal inputs mean equal bodies, member order aside. */
  lemma V2InputIsExact(a: Json, b: Json)
    requires Printable(a) && Printable(b)
    ensures SigningInputV2(Canon(a)) == SigningInputV2(Canon(b)) <==> Equiv(a, b)
  {
    CanonicalJsonIsExact(a, b);
    assert SigningInputV2(Canon(a))[10..] == Canon(a) && SigningInputV2(Canon(b))[10..] == Canon(b);
  }

  // ---------------------------------------------------------------- what acceptance proves

  /** The issuer's key signed, under the v1 prefix, only inputs of the grants it issued. */
  ghost predicate SignsOnlyIssued(c: Crypto, key: Key, issued: set<Payload>) {
    forall message, sig :: c.verify(key, message, sig) && StartsWith(message, SIGNING_PREFIX + "|") ==>
      exists q :: q in issued && Guarded(q) && message == SignedInput(q)
  }

  /**
   * A guarded v1 payload whose signature verifies is an issued grant in all nine fields; only the
   * optional values may sit in other slots, and only if they join to the same bytes.
   */
  lemma AcceptedWasIssued(c: Crypto, key: Key, issued: set<Payload>, p: Payload, sig: string) returns (q: Payload)
    requires SignsOnlyIssued(c, key, issued) && Guarded(p) && c.verify(key, SignedInput(p), sig)
    ensures q in issued && NineFields(q) == NineFields(p) && Tail(q) == Tail(p)
    ensures OptionalsFree(p) && OptionalsFree(q) ==> Optionals(p) == Optionals(q)
  {
    StartsV1(p);
    q :| q in issued && Guarded(q) && SignedInput(p) == SignedInput(q);
    KernelIsExact(p, q);
    if OptionalsFree(p) && OptionalsFree(q) { KernelWithFreeOptionals(p, q); }
  }

  lemma StartsV1(p: Payload)
    ensures StartsWith(SignedInput(p), SIGNING_PREFIX + "|")
  {
    var rest := NineFields(p) + Optionals(p);
    assert Head(p) + Optionals(p) == [SIGNING_PREFIX] + rest;
    JoinAppend([SIGNING_PREFIX], rest, '|');
    assert SignedInput(p) == SIGNING_PREFIX + "|" + Join(rest, '|');
  }

  // ---------------------------------------------------------------- scope and target

  /** Three texts joined by the unit separator, hashed. */
  function ComputeScopeHash(c: Crypto, operation: string, targetId: string, afterPayload: string): string {
    Sha256Pref(c, Join([operation, targetId, afterPayload], US))
  }

  /** A scope hash determines what it scopes when operation and target hold no separator. */
  lemma ScopeHashBinds(c: Crypto, o1: string, t1: string, p1: string, o2: string, t2: string, p2: string)
    requires IdealHash(c) && US !in o1 && US !in t1 && US !in o2 && US !in t2
    requires ComputeScopeHash(c, o1, t1, p1) == ComputeScopeHash(c, o2, t2, p2)
    ensures o1 == o2 && t1 == t2 && p1 == p2
  {
    DigestInjective(c, Join([o1, t1, p1], US), Join([o2, t2, p2], US));
    assert [o1, t1, p1][1..] == [t1, p1] && [o2, t2, p2][1..] == [t2, p2];
    assert [t1, p1][1..] == [p1] && [t2, p2][1..] == [p2];
    assert Join([t1, p1], US) == t1 + [US] + p1 && Join([t2, p2], US) == t2 + [US] + p2;
    CutAt(o1, Join([t1, p1], US), o2, Join([t2, p2], US), US);
    CutAt(t1, p1, t2, p2, US);
  }

  // ---------------------------------------------------------------- verifying a v1 grant

  /** What the caller is about to do; "" stands for a value it does not supply. */
  datatype Intended = Intended(
    receiptToken: string,
    audience: string,
    operation: string,
    targetId: string,
    scopeHash: string,
    afterPayload: Option<string>)

  /** A registry entry; active covers the states "active" and none. */
  datatype KeyEntry = KeyEntry(key: Key, active: bool)

  datatype Status =
    | GrantCurrent
    | BadTimestamp
    | UnknownKey
    | InvalidSignature
    | GrantExpired
    | GrantUnbound
    | GrantWrongAudience
    | GrantScopeMismatch

  /** The scope the caller expects, if it states one or gives the payload to compute it from. */
  function ExpectedScope(c: Crypto, p: Payload, want: Intended): Option<string> {
    if want.scopeHash != "" then Some(want.scopeHash)
    else if want.afterPayload.None? then None
    else
      Some(ComputeScopeHash(c, if want.operation != "" then want.operation else p.operation,
                            if want.targetId != "" then want.targetId else p.targetId, want.afterPayload.value))
  }

  /** Steps 3 to 10 for a structurally accepted v1 payload; date is Date.parse. */
  function VerifyGrant(c: Crypto, date: string -> Date, entry: Option<KeyEntry>, p: Payload, sig: string, now: int, want: Intended)
    : Status
  {
    var exp, iat, scope := date(p.exp), date(p.iat), ExpectedScope(c, p, want);
    if !Guarded(p) then InvalidSignature
    else if entry.None? || !entry.value.active then UnknownKey
    else if !c.verify(entry.value.key, SignedInput(p), sig) then InvalidSignature
    else if !exp.At? || !iat.At? then BadTimestamp
    else if IsExpiredAt(exp.ms, now) || iat.ms > now + CLOCK_SKEW_LEEWAY_MS then GrantExpired
    else if !StartsWith(p.receiptDigest, "sha256:") then GrantUnbound
    else if want.receiptToken != "" && Sha256Pref(c, want.receiptToken) != p.receiptDigest then GrantUnbound
    else if want.audience != "" && p.audience != want.audience then GrantWrongAudience
    else if want.operation != "" && p.operation != want.operation then GrantScopeMismatch
    else if want.targetId != "" && p.targetId != want.targetId then GrantScopeMismatch
    else if scope.Some? && scope.value != p.scopeHash then GrantScopeMismatch
    else GrantCurrent
  }

  /** The grant was issued for this payload, under an operation and target free of the separator. */
  predicate ScopesPayload(c: Crypto, q: Payload, payload: string) {
    US !in q.operation && US !in q.targetId && q.scopeHash == ComputeScopeHash(c, q.operation, q.targetId, payload)
  }

  /**
   * A CURRENT GRANT AUTHORIZES THIS CALL. GRANT_CURRENT means the issuer issued a grant with these nine
   * fields, inside its validity window, for the intended audience, operation and target, and, when it
   * scopes a payload, for exactly the payload at hand and the receipt at hand.
   */
  lemma CurrentMeansAuthorized(c: Crypto, date: string -> Date, entry: KeyEntry, p: Payload, sig: string, now: int, want: Intended,
                               issued: set<Payload>, receipt: string, payload: string) returns (q: Payload)
    requires IdealHash(c) && SignsOnlyIssued(c, entry.key, issued)
    requires VerifyGrant(c, date, Some(entry), p, sig, now, want) == GrantCurrent
    ensures q in issued && NineFields(q) == NineFields(p) && Tail(q) == Tail(p)
    ensures date(q.exp).At? && now <= date(q.exp).ms + CLOCK_SKEW_LEEWAY_MS
    ensures date(q.iat).At? && date(q.iat).ms <= now + CLOCK_SKEW_LEEWAY_MS
    ensures want.audience != "" ==> q.audience == want.audience
    ensures want.operation != "" ==> q.operation == want.operation
    ensures want.targetId != "" ==> q.targetId == want.targetId
    ensures want.receiptToken != "" && q.receiptDigest == Sha256Pref(c, receipt) ==> want.receiptToken == receipt
    ensures ScopesPayload(c, q, payload) && want.scopeHash == "" && want.afterPayload.Some? ==>
              want.afterPayload.value == payload
  {
    q := AcceptedWasIssued(c, entry.key, issued, p, sig);
    var a, b := NineFields(p), NineFields(q);
    assert a[1] == b[1] && a[2] == b[2] && a[3] == b[3] && a[4] == b[4] && a[5] == b[5] && a[7] == b[7] && a[8] == b[8];
    if want.receiptToken != "" && q.receiptDigest == Sha256Pref(c, receipt) {
      DigestInjective(c, want.receiptToken, receipt);
    }
    if ScopesPayload(c, q, payload) && want.scopeHash == "" && want.afterPayload.Some? {
      ScopeHashBinds(c, p.operation, p.targetId, want.afterPayload.value, q.operation, q.targetId, payload);
    }
  }

  const TARGET_SCHEMES: seq<string> := ["fs", "git", "api", "db", "registry", "deploy"]

  predicate SchemeChar(c: char) {
    'a' <= c <= 'z' || 'A' <= c <= 'Z' || '0' <= c <= '9' || c == '+' || c == '.' || c == '-'
  }

  predicate SchemeText(s: string) {
    s != "" && ('a' <= s[0] <= 'z' || 'A' <= s[0] <= 'Z') && forall i :: 0 <= i < |s| ==> SchemeChar(s[i])
  }

  /** The text before the first '/', which may hold user-info. */
  function Authority(rest: string): string {
    if rest == "" || rest[0] == '/' || IsSpace(rest[0]) then "" else [rest[0]] + Authority(rest[1..])
  }

  predicate RestAllowed(scheme: string, rest: string) {
    && '?' !in rest && '#' !in rest
    && !(':' in Authority(rest) && '@' in rest && scheme != "git")
    && !Contains(rest, "..") && !Contains(rest, "//") && NoSpace(rest)
  }

  function StripSlash(rest: string): string {
    if |rest| > 1 && rest[|rest| - 1] == '/' then rest[..|rest| - 1] else rest
  }

  /** The first ':' splits off the scheme; "//" must follow it. */
  function CanonicalizeTargetUri(raw: string): Option<string> {
    var name := Before(raw, ':');
    var after := raw[|name|..];
    if !SchemeText(name) || !StartsWith(after, "://") then None
    else
      var scheme, rest := Lower(name), after[3..];
      if scheme !in TARGET_SCHEMES || !RestAllowed(scheme, rest) then None
      else Some(scheme + "://" + StripSlash(rest))
  }

  lemma {:induction false} ContainsInPrefix(s: string, n: nat, part: string)
    requires n <= |s| && Contains(s[..n], part)
    ensures Contains(s, part)
  {
    if !StartsWith(s[..n], part) {
      assert s[..n][1..] == s[1..][..n - 1];
      ContainsInPrefix(s[1..], n - 1, part);
    } else {
      assert part <= s;
    }
  }

  lemma {:induction false} ContainsAt(s: string, k: nat, part: string)
    requires k + |part| <= |s| && s[k..k + |part|] == part
    ensures Contains(s, part)
  {
    if k == 0 {
      assert part <= s;
    } else {
      assert s[1..][k - 1..k - 1 + |part|] == s[k..k + |part|];
      ContainsAt(s[1..], k - 1, part);
    }
  }

  lemma {:induction false} AuthorityOfPrefix(s: string, n: nat)
    requires n <= |s|
    ensures Authority(s[..n]) <= Authority(s)
  {
    if n > 0 {
      assert s[..n][1..] == s[1..][..n - 1];
      AuthorityOfPrefix(s[1..], n - 1);
    }
  }

  lemma StrippedIsAllowed(scheme: string, rest: string)
    requires RestAllowed(scheme, rest)
    ensures RestAllowed(scheme, StripSlash(rest)) && StripSlash(StripSlash(rest)) == StripSlash(rest)
  {
    var r := StripSlash(rest);
    assert r == rest[..|r|];
    AuthorityOfPrefix(rest, |r|);
    if Contains(r, "..") { ContainsInPrefix(rest, |r|, ".."); }
    if Contains(r, "//") { ContainsInPrefix(rest, |r|, "//"); }
    if |r| < |rest| && |r| > 1 && r[|r| - 1] == '/' {
      assert rest[|r| - 1..|r| + 1] == "//";
      ContainsAt(rest, |r| - 1, "//");
    }
  }

  lemma {:induction false} BeforeIs(name: string, c: char, tail: string)
    requires c !in name && (tail == "" || tail[0] == c)
    ensures Before(name + tail, c) == name
  {
    if name == "" {
      assert name + tail == tail;
    } else {
      assert (name + tail)[1..] == name[1..] + tail;
      BeforeIs(name[1..], c, tail);
    }
  }

  lemma LowerScheme(name: string)
    requires SchemeText(name)
    ensures SchemeText(Lower(name)) && Lower(Lower(name)) == Lower(name) && ':' !in Lower(name)
  {
    var l := Lower(name);
    assert forall i :: 0 <= i < |l| ==> l[i] == LowerChar(name[i]) && SchemeChar(name[i]);
    assert Lower(l) == l;
  }

  /** NORMAL FORM. A canonical target is its own canonical form, so comparing canonical texts is comparing targets. */
  lemma CanonicalTargetIsFixed(raw: string)
    requires CanonicalizeTargetUri(raw).Some?
    ensures CanonicalizeTargetUri(CanonicalizeTargetUri(raw).value) == CanonicalizeTargetUri(raw)
  {
    var name := Before(raw, ':');
    var rest := raw[|name|..][3..];
    var u := CanonicalizeTargetUri(raw).value;
    LowerScheme(name);
    StrippedIsAllowed(Lower(name), rest);
    var tail := "://" + StripSlash(rest);
    assert u == Lower(name) + tail;
    BeforeIs(Lower(name), ':', tail);
    assert u[|Lower(name)|..] == tail && tail[3..] == StripSlash(rest);
  }
}
