/** Compare-and-swap safety over HTTP, and what the recovery reader says afterwards. */
module HttpSafety {
  import opened Text
  import opened Crypto
  import opened HttpOrigin
  import opened Reconcile
  import opened ReconcileAll
  import Attestation

  /** The representation a call's write was applied to: none, or the one carrying the pinned ETag. */
  predicate AppliedToPin(o: Origin, call: Call, k: nat) {
    var h := History(o, UrlOf(call));
    k < |h| && if IsCreateIntentPin(call.pin) then k == 0 else k > 0 && h[k - 1].etag == call.pin
  }

  predicate Distinct(h: seq<Rep>) {
    forall j, k :: 0 <= j < k < |h| ==> h[j].etag != h[k].etag
  }

  predicate ExecOk(w: World, s: State, e: Exec, i: nat) {
    var h := History(s.origin, UrlOf(e.call));
    && e.seen <= |h|
    && (e.wrote.Some? ==> AppliedToPin(s.origin, e.call, e.wrote.value) && h[e.wrote.value].writer == Some(i)
                          && e.seen <= e.wrote.value && Clear(e.call))
    && (e.pc.Presented? || e.pc.Cleared? || e.pc.Watched? ==> e.wrote.None?)
    && (e.pc.Watched? ==> SawCurrent(e, h, e.pc.etag))
    && (e.pc.Landed? || (e.pc.Done? && e.pc.result.Success?) ==> Applied(w, s, e) && Clear(e.call))
    && (e.pc.Cleared? || e.pc.Watched? ==> Clear(e.call))
    && (e.pc.Done? && e.pc.result.Success? ==> e.pc.result.token == SealedToken(w.c, e.call))
    && (e.pc.Done? && e.pc.result.IfMatchNotHonored? ==>
          Applied(w, s, e) && Clear(e.call) && SawCurrent(e, h, Some(e.pc.result.observedBefore))
          && e.pc.result.observedBefore != e.call.pin)
  }

  /** What a 2xx answer stands for: the call's own write, or the write of a request it repeats. */
  predicate Applied(w: World, s: State, e: Exec) { e.wrote.Some? || Replayable(w, s.origin, e.call) }

  /** Representations and the calls that wrote them name each other. */
  predicate WriterOk(w: World, s: State, url: string, k: nat)
    requires k < |History(s.origin, url)|
  {
    var r := History(s.origin, url)[k];
    match r.writer
    case None => r.request.Some? ==> UrlOf(r.request.value) == url && w.foreign(r.request.value)
    case Some(x) =>
      x < |s.execs| && s.execs[x].wrote == Some(k) && UrlOf(s.execs[x].call) == url && r.request == Some(s.execs[x].call)
  }

  predicate WritersOk(w: World, s: State) {
    forall url, k :: url in s.origin && 0 <= k < |History(s.origin, url)| ==> WriterOk(w, s, url, k)
  }

  /** An observed ETag was the current one when it was observed; a create-only call saw none. */
  predicate SawCurrent(e: Exec, h: seq<Rep>, etag: Option<string>) {
    e.seen <= |h| && if IsCreateIntentPin(e.call.pin) then etag.None?
                     else etag.Some? && e.seen > 0 && h[e.seen - 1].etag == etag.value
  }

  ghost predicate Safe(w: World, s: State) {
    && (forall url :: url in s.origin ==> Distinct(s.origin[url]))
    && (forall i :: 0 <= i < |s.execs| ==> ExecOk(w, s, s.execs[i], i))
    && WritersOk(w, s)
  }

  lemma ExecOkLater(w: World, s: State, s': State, e: Exec, i: nat)
    requires ExecOk(w, s, e, i) && History(s.origin, UrlOf(e.call)) <= History(s'.origin, UrlOf(e.call))
    ensures ExecOk(w, s', e, i)
  {
    var url := UrlOf(e.call);
    if k :| 0 <= k < |History(s.origin, url)| && ReplayOf(w, s.origin, e.call, k) {
      assert ReplayOf(w, s'.origin, e.call, k);
    }
  }

  lemma AppendGrows(o: Origin, url: string, r: Rep, at: string)
    ensures History(o, at) <= History(Append(o, url, r), at)
  {
  }

  lemma AppendDistinct(o: Origin, url: string, r: Rep)
    requires (forall u :: u in o ==> Distinct(o[u])) && FreshEtag(o, url, r.etag)
    ensures forall u :: u in Append(o, url, r) ==> Distinct(Append(o, url, r)[u])
  {
  }

  lemma ObserveOk(w: World, s: State, i: nat, reply: Option<Reply>)
    requires Safe(w, s) && Enabled(w, s, Observe(i, reply))
    ensures ExecOk(w, ObserveStep(s, i, reply), ObserveStep(s, i, reply).execs[i], i)
  {
    assert ExecOk(w, s, s.execs[i], i);
  }

  /** A write is the next representation, applied to the pinned one. */
  lemma OwnWrite(o: Origin, call: Call, r: Rep)
    requires Precondition(o, call)
    ensures History(Append(o, UrlOf(call), r), UrlOf(call)) == History(o, UrlOf(call)) + [r]
    ensures AppliedToPin(Append(o, UrlOf(call), r), call, |History(o, UrlOf(call))|)
  {
  }

  /** The reply's decision: landed on a 2xx, else refused, and never a success. */
  lemma WriteDecision(call: Call, observed: Option<string>, reply: Option<Reply>)
    ensures var r := WriteRefusal(call, observed, reply);
            && (r.None? || r.value.IfMatchNotHonored? ==> reply.Some? && Ok(reply.value.status))
            && (r.Some? ==> !r.value.Success?)
            && (r.Some? && r.value.IfMatchNotHonored? ==> observed == Some(r.value.observedBefore) && r.value.observedBefore != call.pin)
  {
  }

  lemma PutOk(w: World, s: State, i: nat, reply: Option<Reply>, applied: Option<string>)
    requires i < |s.execs| && s.execs[i].pc.Watched? && ExecOk(w, s, s.execs[i], i)
    requires HonestPut(w, s.origin, s.execs[i].call, reply, applied)
    ensures ExecOk(w, PutStep(s, i, reply, applied), PutStep(s, i, reply, applied).execs[i], i)
  {
    if applied.None? { PutUnapplied(w, s, i, reply); } else { PutApplied(w, s, i, reply, applied); }
  }

  lemma PutUnapplied(w: World, s: State, i: nat, reply: Option<Reply>)
    requires i < |s.execs| && s.execs[i].pc.Watched? && ExecOk(w, s, s.execs[i], i)
    requires HonestPut(w, s.origin, s.execs[i].call, reply, None)
    ensures ExecOk(w, PutStep(s, i, reply, None), PutStep(s, i, reply, None).execs[i], i)
  {
    WriteDecision(s.execs[i].call, s.execs[i].pc.etag, reply);
    var s' := PutStep(s, i, reply, None);
    assert s'.origin == s.origin && s'.execs[i].wrote == s.execs[i].wrote && s'.execs[i].seen == s.execs[i].seen;
    assert Applied(w, s', s'.execs[i]) == Applied(w, s, s.execs[i]);
  }

  lemma PutApplied(w: World, s: State, i: nat, reply: Option<Reply>, applied: Option<string>)
    requires i < |s.execs| && s.execs[i].pc.Watched? && ExecOk(w, s, s.execs[i], i) && applied.Some?
    requires HonestPut(w, s.origin, s.execs[i].call, reply, applied)
    ensures ExecOk(w, PutStep(s, i, reply, applied), PutStep(s, i, reply, applied).execs[i], i)
  {
    var e := s.execs[i];
    WriteDecision(e.call, e.pc.etag, reply);
    OwnWrite(s.origin, e.call, Rep(applied.value, Some(i), Some(e.call)));
    var s' := PutStep(s, i, reply, applied);
    assert s'.execs[i].wrote == Some(|History(s.origin, UrlOf(e.call))|) && s'.execs[i].seen == e.seen;
    assert Applied(w, s', s'.execs[i]);
  }

  lemma ActorOk(w: World, s: State, a: Action, i: nat)
    requires Safe(w, s) && Enabled(w, s, a) && i < |s.execs| && Next(w, s, a).execs[i] != s.execs[i]
    ensures ExecOk(w, Next(w, s, a), Next(w, s, a).execs[i], i)
  {
    assert ExecOk(w, s, s.execs[i], i);
    match a
    case Observe(k, reply) => ObserveOk(w, s, k, reply);
    case Put(k, reply, applied) => PutOk(w, s, k, reply, applied);
    case _ =>
  }

  lemma StepGrows(w: World, s: State, a: Action, url: string)
    requires Enabled(w, s, a)
    ensures History(s.origin, url) <= History(Next(w, s, a).origin, url)
  {
    match a
    case Put(i, _, applied) =>
      if applied.Some? { AppendGrows(s.origin, UrlOf(s.execs[i].call), Rep(applied.value, Some(i), Some(s.execs[i].call)), url); }
    case Foreign(u, etag, request) => AppendGrows(s.origin, u, Rep(etag, None, request), url);
    case _ =>
  }

  lemma StepDistinct(w: World, s: State, a: Action)
    requires Safe(w, s) && Enabled(w, s, a)
    ensures forall u :: u in Next(w, s, a).origin ==> Distinct(Next(w, s, a).origin[u])
  {
    match a
    case Put(i, _, applied) =>
      if applied.Some? { AppendDistinct(s.origin, UrlOf(s.execs[i].call), Rep(applied.value, Some(i), Some(s.execs[i].call))); }
    case Foreign(u, etag, request) => AppendDistinct(s.origin, u, Rep(etag, None, request));
    case _ =>
  }

  /** A call stays the same call, and what it wrote stays its write. */
  predicate Remembers(s: State, s': State) {
    |s.execs| <= |s'.execs| && forall x :: 0 <= x < |s.execs| ==>
      s'.execs[x].call == s.execs[x].call && (s.execs[x].wrote.Some? ==> s'.execs[x].wrote == s.execs[x].wrote)
  }

  lemma StepRemembers(w: World, s: State, a: Action)
    requires Safe(w, s) && Enabled(w, s, a)
    ensures Remembers(s, Next(w, s, a))
  {
    if a.Put? { assert ExecOk(w, s, s.execs[a.i], a.i); }
  }

  /** What was written stays written, by the same call. */
  lemma WriterStays(w: World, s: State, s': State, url: string, k: nat)
    requires k < |History(s.origin, url)| && WriterOk(w, s, url, k)
    requires Remembers(s, s') && History(s.origin, url) <= History(s'.origin, url)
    ensures WriterOk(w, s', url, k)
  {
  }

  lemma StepWriters(w: World, s: State, a: Action)
    requires Safe(w, s) && Enabled(w, s, a)
    ensures WritersOk(w, Next(w, s, a))
  {
    var s' := Next(w, s, a);
    StepRemembers(w, s, a);
    forall url, k | url in s'.origin && 0 <= k < |History(s'.origin, url)| ensures WriterOk(w, s', url, k) {
      StepGrows(w, s, a, url);
      if k < |History(s.origin, url)| { WriterStays(w, s, s', url, k); }
    }
  }

  lemma StepSafe(w: World, s: State, a: Action)
    requires Safe(w, s) && Enabled(w, s, a)
    ensures Safe(w, Next(w, s, a))
  {
    var s' := Next(w, s, a);
    StepDistinct(w, s, a);
    StepWriters(w, s, a);
    forall i | 0 <= i < |s'.execs| ensures ExecOk(w, s', s'.execs[i], i) {
      if i < |s.execs| {
        if s'.execs[i] == s.execs[i] {
          StepGrows(w, s, a, UrlOf(s.execs[i].call));
          ExecOkLater(w, s, s', s.execs[i], i);
        } else {
          ActorOk(w, s, a, i);
        }
      }
    }
  }

  lemma {:induction false} SafeRun(w: World, acts: seq<Action>)
    requires Run(w, acts).Some?
    ensures Safe(w, Run(w, acts).value)
    decreases |acts|
  {
    if acts != [] {
      SafeRun(w, acts[..|acts| - 1]);
      StepSafe(w, Run(w, acts[..|acts| - 1]).value, acts[|acts| - 1]);
    }
  }

  // ---------------------------------------------------------------- compare-and-swap

  /** The same pin on the same path; all create-only pins of a path mean the same thing. */
  predicate SamePin(a: Call, b: Call) {
    UrlOf(a) == UrlOf(b) && (a.pin == b.pin || (IsCreateIntentPin(a.pin) && IsCreateIntentPin(b.pin)))
  }

  /**
   * COMPARE AND SWAP. Over every interleaving of calls and foreign writers, at most one write lands per pin
   * and path (whether or not its call lived to return ok), and it was applied to exactly the pinned state.
   */
  lemma AtMostOneLands(w: World, acts: seq<Action>, s: State, i: nat, j: nat)
    requires Run(w, acts) == Some(s) && i < |s.execs| && j < |s.execs|
    requires s.execs[i].wrote.Some? && s.execs[j].wrote.Some? && SamePin(s.execs[i].call, s.execs[j].call)
    ensures i == j && AppliedToPin(s.origin, s.execs[i].call, s.execs[i].wrote.value)
  {
    SafeRun(w, acts);
    WroteOnPin(w, s, i);
    WroteOnPin(w, s, j);
    var h := History(s.origin, UrlOf(s.execs[i].call));
    assert Distinct(h);
  }

  lemma WroteOnPin(w: World, s: State, i: nat)
    requires Safe(w, s) && i < |s.execs| && s.execs[i].wrote.Some?
    ensures AppliedToPin(s.origin, s.execs[i].call, s.execs[i].wrote.value)
    ensures History(s.origin, UrlOf(s.execs[i].call))[s.execs[i].wrote.value].writer == Some(i)
  {
    assert ExecOk(w, s, s.execs[i], i);
  }

  predicate ReturnedOk(e: Exec) { e.pc.Done? && e.pc.result.Success? }

  /** The origin takes the first request for a repeat of the second. */
  predicate Related(w: World, a: Call, b: Call) { UrlOf(a) == UrlOf(b) && w.same(a, b) }

  /** Call i repeats a request of another call, which wrote, or one another user agent makes. */
  ghost predicate Repeated(w: World, s: State, i: nat)
    requires i < |s.execs|
  {
    || (exists x :: 0 <= x < |s.execs| && x != i && s.execs[x].wrote.Some? && Related(w, s.execs[i].call, s.execs[x].call))
    || RepeatsForeign(w, s.execs[i].call)
  }

  /** Some other user agent may make a request this one is taken to repeat. */
  ghost predicate RepeatsForeign(w: World, call: Call) { exists r :: w.foreign(r) && Related(w, call, r) }

  /** A 2xx stands for the call's own write, or for another's that it repeats. */
  lemma AppliedMeans(w: World, s: State, i: nat)
    requires Safe(w, s) && i < |s.execs| && Applied(w, s, s.execs[i])
    ensures s.execs[i].wrote.Some? || Repeated(w, s, i)
  {
    var call := s.execs[i].call;
    var url := UrlOf(call);
    if s.execs[i].wrote.None? {
      var k :| 0 <= k < |History(s.origin, url)| && ReplayOf(w, s.origin, call, k);
      var r := History(s.origin, url)[k];
      assert WriterOk(w, s, url, k) && Related(w, call, r.request.value);
      if r.writer.Some? {
        assert r.writer.value != i && Related(w, call, s.execs[r.writer.value].call);
      }
    }
  }

  /**
   * ONE OK PER PIN, REPLAYS ASIDE. Of all calls with the same pin at most one returns ok for a write of its
   * own; any other that returns ok repeats a request of another call or of another user agent.
   */
  lemma AtMostOneOk(w: World, acts: seq<Action>, s: State, i: nat, j: nat)
    requires Run(w, acts) == Some(s) && i < |s.execs| && j < |s.execs| && i != j
    requires ReturnedOk(s.execs[i]) && ReturnedOk(s.execs[j]) && SamePin(s.execs[i].call, s.execs[j].call)
    ensures (s.execs[i].wrote.None? && Repeated(w, s, i)) || (s.execs[j].wrote.None? && Repeated(w, s, j))
  {
    SafeRun(w, acts);
    assert ExecOk(w, s, s.execs[i], i) && ExecOk(w, s, s.execs[j], j);
    AppliedMeans(w, s, i);
    AppliedMeans(w, s, j);
    if s.execs[i].wrote.Some? && s.execs[j].wrote.Some? { AtMostOneLands(w, acts, s, i, j); }
  }

  /** The pin was carried by no representation up to the observation, and by a later one. */
  predicate FuturePin(s: State, i: nat)
    requires i < |s.execs|
  {
    var e := s.execs[i];
    var h := History(s.origin, UrlOf(e.call));
    && (forall k :: 0 <= k < e.seen && k < |h| ==> h[k].etag != e.call.pin)
    && (exists k :: e.seen <= k < |h| && h[k].etag == e.call.pin)
  }

  predicate NotHonored(e: Exec) { e.pc.Done? && e.pc.result.IfMatchNotHonored? }

  /**
   * AN HONEST ORIGIN IS ACCUSED ONLY OVER A FUTURE ETAG, OR A REPEAT. If a call answers IF_MATCH_NOT_HONORED,
   * its pin was carried by no representation up to its observation and by the one its write replaced, or
   * it wrote nothing and repeats a request of another call or of another user agent.
   */
  lemma NotHonoredMeansFuturePin(w: World, acts: seq<Action>, s: State, i: nat)
    requires Run(w, acts) == Some(s) && i < |s.execs| && NotHonored(s.execs[i])
    ensures if s.execs[i].wrote.Some? then FuturePin(s, i) else Repeated(w, s, i)
    ensures !IsCreateIntentPin(s.execs[i].call.pin)
  {
    SafeRun(w, acts);
    var e := s.execs[i];
    var h := History(s.origin, UrlOf(e.call));
    assert ExecOk(w, s, e, i);
    AppliedMeans(w, s, i);
    if e.wrote.Some? {
      assert Distinct(h);
      assert h[e.wrote.value - 1].etag == e.call.pin;
      assert e.wrote.value - 1 != e.seen - 1;
    }
  }

  // ---------------------------------------------------------------- the canary

  /** What an origin that evaluates If-Match on GET answers to the probe. */
  predicate HonestProbe(current: string, stale: string, probe: Option<Reply>) {
    probe.Some? && Ok(probe.value.status) ==> current == stale
  }

  /**
   * The canary clears an origin only on a 412 to a validator it had just seen not to be current, and
   * never accuses an origin that evaluates If-Match on GET unless the stale literal became current.
   */
  lemma CanaryIsSound(baseUrl: string, path: string, observe: Option<Reply>, probe: Option<Reply>, current: string)
    ensures var dest := ResourceUrl(baseUrl, path);
            var o := ObserveEtag(observe);
            && (ProviderCanary(dest, observe, probe) == CANARY_HONORS <==>
                  dest.Address? && o.Observed? && o.etag.Some? && o.etag.value != ""
                  && probe.Some? && probe.value.status == 412)
            && (o.Observed? && o.etag.Some? ==> StaleFor(o.etag.value) != o.etag.value)
            && (ProviderCanary(dest, observe, probe) == CANARY_DOES_NOT_HONOR ==>
                  o.Observed? && o.etag.Some?
                  && (HonestProbe(current, StaleFor(o.etag.value), probe) ==> current in [STALE_1, STALE_2]))
  {
    assert STALE_1[|STALE_1| - 2] == 'e' && STALE_2[|STALE_2| - 2] == '2';
    assert CANARY_HONORS[0] == 'H' && CANARY_UNKNOWN[0] == 'U' && CANARY_DOES_NOT_HONOR[0] == 'D';
  }

  // ---------------------------------------------------------------- recovery

  lemma FieldsAreFree(c: Crypto, call: Call)
    requires Ideal(c) && Precheck(call).None?
    ensures '|' !in call.jti && call.jti != "" && '|' !in call.deployment && '|' !in call.resourcePath && call.resourcePath != ""
    ensures '|' !in c.sha256hex(Join([Verb(call), call.resourcePath, call.pin, call.wireBody], US))
  {
    DigestFree(c, Join([Verb(call), call.resourcePath, call.pin, call.wireBody], US), '|');
    var f := [call.resourcePath, call.jti, call.deployment, call.pin];
    assert '|' !in f[0] && '|' !in f[1] && '|' !in f[2];
  }

  lemma GateOnSealed(c: Crypto, call: Call, t: Trust)
    requires Ideal(c) && Precheck(call).None? && SignerInForce(t, call.kid, call.key) && call.deployment == t.deployment
    ensures VerifyStored(c, TokenText(SealedToken(c, call)), call.jti, t.deployment, t.keys, t.asOf,
                         Some(Exact(call.resourcePath))).Proven?
  {
    FieldsAreFree(c, call);
    var mutation := c.sha256hex(Join([Verb(call), call.resourcePath, call.pin, call.wireBody], US));
    Attestation.SealedVerifies(c, call.key, call.kid, call.jti, call.deployment, mutation, call.resourcePath,
                               Attestation.Intended(call.jti, t.deployment));
    Attestation.PreimageFields(call.jti, call.deployment, mutation, call.resourcePath);
    Attestation.TokenSegments(c, call.key, call.kid, SealedPreimage(c, call));
  }

  /** What an honest origin lets the reader see: the current ETag, no ETag, or nothing. */
  predicate HonestAnswer(o: Origin, url: string, answer: ReconcileAll.Observation) {
    answer.Readable? && answer.etag.Some? ==>
      History(o, url) != [] && answer.etag.value == History(o, url)[|History(o, url)| - 1].etag
  }

  /** The token the caller kept, if it kept one. */
  function Kept(e: Exec, kept: bool): Option<Stored>
    requires kept ==> ReturnedOk(e)
  {
    if kept then Some(TokenText(e.pc.result.token)) else None
  }

  /** The answer owed for a write that landed as the wrote-th of n representations. */
  function LandedVerdict(wrote: nat, n: nat, expected: string, kept: bool, answer: ReconcileAll.Observation): Outcome {
    if answer.Unreadable? || expected == "" then Indeterminate
    else if wrote == n - 1 && answer.etag.Some? then (if kept then Confirmed else Indeterminate)
    else if kept then Indeterminate else Rejected
  }

  lemma ItemVerdict(c: Crypto, call: Call, t: Trust, expected: string, kept: Option<Stored>,
                    answer: ReconcileAll.Observation)
    requires Ideal(c) && (kept.Some? ==> Precheck(call).None? && kept.value == TokenText(SealedToken(c, call)))
    requires kept.Some? ==> SignerInForce(t, call.kid, call.key) && call.deployment == t.deployment
    ensures HttpEntryOf(c, HttpItem(call.jti, call.resourcePath, expected, kept), answer, t).outcome ==
            if answer.Unreadable? || expected == "" then Indeterminate
            else if answer.etag == Some(expected) then (if kept.Some? then Confirmed else Indeterminate)
            else if kept.Some? then Indeterminate else Rejected
  {
    if kept.Some? { GateOnSealed(c, call, t); }
    assert SealedToken(c, call)[0] == 'c';
  }

  /** The k-th representation is the call's own write, or that of a request it repeats. */
  predicate StandsFor(w: World, s: State, i: nat, k: nat)
    requires i < |s.execs|
  {
    s.execs[i].wrote == Some(k) || ReplayOf(w, s.origin, s.execs[i].call, k)
  }

  /** The caller kept the token its call returned, and the reader can check it. */
  predicate Checkable(t: Trust, e: Exec) {
    ReturnedOk(e) && SignerInForce(t, e.call.kid, e.call.key) && e.call.deployment == t.deployment
  }

  /**
   * HTTP RECOVERY IS EXACT, for every write that landed and every call it stands for, whether the call
   * returned, crashed, lost the reply or was answered with an earlier result. Asked with the ETag the write
   * produced and answered honestly, the reader says CONFIRMED or INDETERMINATE (token kept or not) while
   * the write is the current representation and shown with its ETag; after that INDETERMINATE if a token
   * was kept and REJECTED if not. Without an ETag to ask with it always says INDETERMINATE.
   */
  lemma HttpRecoveryIsExact(w: World, acts: seq<Action>, s: State, t: Trust, i: nat, k: nat, expected: string, kept: bool,
                            answer: ReconcileAll.Observation)
    requires Ideal(w.c) && Run(w, acts) == Some(s) && i < |s.execs| && StandsFor(w, s, i, k)
    requires kept ==> Checkable(t, s.execs[i])
    requires HonestAnswer(s.origin, UrlOf(s.execs[i].call), answer)
    requires expected != "" ==> k < |History(s.origin, UrlOf(s.execs[i].call))|
                                && expected == History(s.origin, UrlOf(s.execs[i].call))[k].etag
    ensures var e := s.execs[i];
            var n := |History(s.origin, UrlOf(e.call))|;
            var item := HttpItem(e.call.jti, e.call.resourcePath, expected, Kept(e, kept));
            && k < n && HttpEntryOf(w.c, item, answer, t).outcome == LandedVerdict(k, n, expected, kept, answer)
  {
    SafeRun(w, acts);
    var e := s.execs[i];
    assert ExecOk(w, s, e, i);
    assert Distinct(History(s.origin, UrlOf(e.call)));
    ItemVerdict(w.c, e.call, t, expected, Kept(e, kept), answer);
  }

  /**
   * WHEN A LANDED WRITE IS CALLED REJECTED: asked about by its ETag, exactly when no token was kept and
   * the reader is shown a later representation, or the resource without its ETag.
   */
  lemma LandedIsRejectedIff(w: World, acts: seq<Action>, s: State, t: Trust, i: nat, k: nat, kept: bool,
                            answer: ReconcileAll.Observation)
    requires Ideal(w.c) && Run(w, acts) == Some(s) && i < |s.execs| && StandsFor(w, s, i, k)
    requires k < |History(s.origin, UrlOf(s.execs[i].call))|
    requires History(s.origin, UrlOf(s.execs[i].call))[k].etag != ""
    requires kept ==> Checkable(t, s.execs[i])
    requires HonestAnswer(s.origin, UrlOf(s.execs[i].call), answer)
    ensures var e := s.execs[i];
            var h := History(s.origin, UrlOf(e.call));
            var item := HttpItem(e.call.jti, e.call.resourcePath, h[k].etag, Kept(e, kept));
            HttpEntryOf(w.c, item, answer, t).outcome == Rejected <==>
              !kept && answer.Readable? && (answer.etag.None? || k < |h| - 1)
  {
    HttpRecoveryIsExact(w, acts, s, t, i, k, History(s.origin, UrlOf(s.execs[i].call))[k].etag, kept, answer);
  }

  // ---------------------------------------------------------------- a false REJECTED

  ghost predicate Reaches(w: World, acts: seq<Action>, s: State) { Run(w, acts) == Some(s) }

  lemma Extend(w: World, acts: seq<Action>, s: State, a: Action) returns (acts': seq<Action>)
    requires Reaches(w, acts, s) && Enabled(w, s, a)
    ensures Reaches(w, acts', Next(w, s, a))
  {
    acts' := acts + [a];
    assert acts'[..|acts|] == acts;
  }

  /** Whatever canary a clear call brings, it can be answered so that the call goes on. */
  lemma Starts(w: World, acts: seq<Action>, s: State, i: nat) returns (acts': seq<Action>)
    requires Reaches(w, acts, s) && i < |s.execs| && s.execs[i].pc.Presented? && Clear(s.execs[i].call)
    ensures Reaches(w, acts', Goto(s, i, Cleared))
  {
    acts' := Extend(w, acts, s, Start(i, Some(Reply(200, Some("e"))), Some(Reply(412, None))));
  }

  /** A create-only call is cleared and has seen that nothing is there. */
  lemma ReadyToCreate(w: World, call: Call) returns (acts: seq<Action>)
    requires Clear(call) && IsCreateIntentPin(call.pin)
    ensures Reaches(w, acts, State(map[], [Exec(call, Watched(None, 0), 0, None)]))
  {
    acts := [];
    acts := Extend(w, acts, Init, Spawn(call));
    var s1 := State(map[], [Exec(call, Presented, 0, None)]);
    assert Next(w, Init, Spawn(call)) == s1;
    acts := Starts(w, acts, s1, 0);
    var s2 := State(map[], [Exec(call, Cleared, 0, None)]);
    assert Goto(s1, 0, Cleared) == s2;
    var gone := Some(Reply(404, None));
    acts := Extend(w, acts, s2, Observe(0, gone));
    assert Next(w, s2, Observe(0, gone)) == State(map[], [Exec(call, Watched(None, 0), 0, None)]);
  }

  /** The write lands; its reply is lost, or the call crashes before it seals. */
  lemma LandsUnsealed(w: World, call: Call, etag: string, replyLost: bool) returns (acts: seq<Action>, s: State)
    requires Clear(call) && IsCreateIntentPin(call.pin)
    ensures Reaches(w, acts, s) && s.origin == map[UrlOf(call) := [Rep(etag, Some(0), Some(call))]]
    ensures s.execs == [Exec(call, if replyLost then Done(Refused(CasRequestFailed)) else Crashed, 0, Some(0))]
  {
    acts := ReadyToCreate(w, call);
    s := State(map[], [Exec(call, Watched(None, 0), 0, None)]);
    var reply := if replyLost then None else Some(Reply(201, Some(etag)));
    acts := Extend(w, acts, s, Put(0, reply, Some(etag)));
    assert [] + [Rep(etag, Some(0), Some(call))] == [Rep(etag, Some(0), Some(call))];
    s := Next(w, s, Put(0, reply, Some(etag)));
    assert s.origin == map[UrlOf(call) := [Rep(etag, Some(0), Some(call))]];
    if !replyLost {
      acts := Extend(w, acts, s, Crash(0));
      s := Next(w, s, Crash(0));
    }
  }

  /**
   * A write lands and its reply is lost, or its call crashes before the seal; somebody else then replaces
   * the representation. The reader, honestly answered, says REJECTED of a write that happened.
   */
  lemma LandedWriteIsRejected(w: World, call: Call, etag: string, later: string, replyLost: bool, t: Trust)
    returns (acts: seq<Action>, s: State)
    requires Clear(call) && IsCreateIntentPin(call.pin) && etag != "" && later != etag
    ensures Run(w, acts) == Some(s) && |s.execs| == 1 && s.execs[0].call == call && s.execs[0].wrote == Some(0)
    ensures History(s.origin, UrlOf(call)) == [Rep(etag, Some(0), Some(call)), Rep(later, None, None)]
    ensures HonestAnswer(s.origin, UrlOf(call), Readable(Some(later)))
    ensures HttpEntryOf(w.c, HttpItem(call.jti, call.resourcePath, etag, None), Readable(Some(later)), t).outcome == Rejected
  {
    var s1;
    acts, s1 := LandsUnsealed(w, call, etag, replyLost);
    acts := Extend(w, acts, s1, Foreign(UrlOf(call), later, None));
    s := Next(w, s1, Foreign(UrlOf(call), later, None));
  }
}
