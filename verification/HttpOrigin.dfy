/**
 * The HTTP executor against an origin that honours preconditions: observe, conditional write, seal, as
 * steps interleaved with other executors and with foreign writers.
 */
module HttpOrigin {
  import opened Text
  import opened Crypto
  import Attestation

  const CANARY_HONORS := "HONORS_IF_MATCH"
  const CANARY_DOES_NOT_HONOR := "DOES_NOT_HONOR"
  const CANARY_UNKNOWN := "UNKNOWN"
  const STALE_1 := "\"cr.http.canary.stale\""
  const STALE_2 := "\"cr.http.canary.stale.2\""

  // ---------------------------------------------------------------- pins and addresses

  /** A strong validator (section 8.8.3 of RFC 9110): a quoted, non-empty opaque tag without W/. */
  predicate IsStrongEtag(etag: string) {
    |etag| >= 3 && etag[0] == '"' && etag[|etag| - 1] == '"' && '"' !in etag[1..|etag| - 1]
  }

  predicate IsCreateIntentPin(pin: string) { StartsWith(pin, "absent:") }

  function StripSlashes(s: string): string {
    if s != "" && s[|s| - 1] == '/' then StripSlashes(s[..|s| - 1]) else s
  }

  datatype UrlRefusal = MissingBaseUrl | ResourcePathNotRooted | ResourcePathAbsolute

  datatype Url = Address(url: string) | NoAddress(why: UrlRefusal)

  function ResourceUrl(baseUrl: string, path: string): Url {
    if Trim(baseUrl) == "" then NoAddress(MissingBaseUrl)
    else if !StartsWith(path, "/") then NoAddress(ResourcePathNotRooted)
    else if Contains(path, "://") then NoAddress(ResourcePathAbsolute)
    else Address(StripSlashes(baseUrl) + path)
  }

  // ---------------------------------------------------------------- requests

  /** An HTTP response; a request that threw has none. */
  datatype Reply = Reply(status: int, etag: Option<string>)

  predicate Ok(status: int) { 200 <= status < 300 }

  /** `observeEtag`: the etag (null on 404), or a failure that is no pin. */
  datatype Observation = Observed(status: int, etag: Option<string>) | ObserveFailed

  function ObserveEtag(reply: Option<Reply>): Observation {
    if reply.None? then ObserveFailed
    else if reply.value.status == 404 then Observed(404, None)
    else if !Ok(reply.value.status) then ObserveFailed
    else Observed(reply.value.status, reply.value.etag)
  }

  // ---------------------------------------------------------------- canary

  function StaleFor(etag: string): string { if etag == STALE_1 then STALE_2 else STALE_1 }

  /** `providerCanary`'s classification of its two GETs. */
  function ProviderCanary(dest: Url, observe: Option<Reply>, probe: Option<Reply>): string {
    var o := ObserveEtag(observe);
    if dest.NoAddress? || o.ObserveFailed? || o.etag.None? || o.etag.value == "" then CANARY_UNKNOWN
    else if probe.None? then CANARY_UNKNOWN
    else if probe.value.status == 412 then CANARY_HONORS
    else if Ok(probe.value.status) then CANARY_DOES_NOT_HONOR
    else CANARY_UNKNOWN
  }

  datatype Canary = NoCanary | GivenCanary(honored: string) | ProbeCanary

  // ---------------------------------------------------------------- the call

  /** The arguments of one httpAtomicExecute call; wireBody is the JSON text of the body. */
  datatype Call = Call(
    baseUrl: string,
    resourcePath: string,
    jti: string,
    grantDeployment: string,
    deployment: string,
    pin: string,
    method_: string,
    wireBody: string,
    kid: string,
    key: Key,
    canary: Canary)

  datatype Refusal =
    | DeploymentIdMismatch
    | MissingJti
    | MissingIfMatch
    | MissingStrongEtag
    | MethodNotCas
    | DelimiterInField
    | BadAddress(why: UrlRefusal)
    | CanaryDoesNotHonor
    | CanaryUnknown
    | ObserveRefused
    | CasRequestFailed
    | UnexpectedHttpStatus(status: int)

  datatype Result =
    | Refused(why: Refusal)
    | Drift(challenged: string, current: Option<string>)
    | IfMatchNotHonored(observedBefore: string)
    | Success(token: string, preimage: string, etagAfter: Option<string>)

  function Verb(call: Call): string { if call.method_ == "" then "PUT" else Upper(call.method_) }

  function UrlOf(call: Call): string {
    var dest := ResourceUrl(call.baseUrl, call.resourcePath);
    if dest.Address? then dest.url else ""
  }

  /** The refusals before any request, in order. */
  function Precheck(call: Call): Option<Refusal> {
    var dest := ResourceUrl(call.baseUrl, call.resourcePath);
    if call.deployment == "" || call.grantDeployment != call.deployment then Some(DeploymentIdMismatch)
    else if call.jti == "" then Some(MissingJti)
    else if call.pin == "" then Some(MissingIfMatch)
    else if !IsCreateIntentPin(call.pin) && !IsStrongEtag(call.pin) then Some(MissingStrongEtag)
    else if Verb(call) != "PUT" && Verb(call) != "PATCH" then Some(MethodNotCas)
    else if !Free([call.resourcePath, call.jti, call.deployment, call.pin], '|') then Some(DelimiterInField)
    else if dest.NoAddress? then Some(BadAddress(dest.why))
    else None
  }

  /** The upfront gate: no canary, or exactly the HONORS classification, lets the call through. */
  function CanaryGateRefusal(honored: Option<string>): Option<Refusal> {
    if honored.None? || honored.value == CANARY_HONORS then None
    else if honored.value == CANARY_DOES_NOT_HONOR then Some(CanaryDoesNotHonor)
    else Some(CanaryUnknown)
  }

  function CanaryOf(call: Call, observe: Option<Reply>, probe: Option<Reply>): Option<string> {
    match call.canary
    case NoCanary => None
    case GivenCanary(honored) => Some(honored)
    case ProbeCanary => Some(ProviderCanary(ResourceUrl(call.baseUrl, call.resourcePath), observe, probe))
  }

  /** A call that nothing but the origin can stop. */
  predicate Clear(call: Call) {
    Precheck(call).None? && (call.canary.GivenCanary? ==> call.canary.honored == CANARY_HONORS)
  }

  /** What the observation decides: refuse, or write against what was seen. */
  function ObserveRefusal(call: Call, o: Observation): Option<Result> {
    if o.ObserveFailed? then Some(Refused(ObserveRefused))
    else if !IsCreateIntentPin(call.pin) then
      if o.status == 404 || o.etag.None? || !IsStrongEtag(o.etag.value) then Some(Refused(MissingStrongEtag)) else None
    else if o.status != 404 then
      Some(Drift(call.pin, Some(if o.etag.Some? && o.etag.value != "" then o.etag.value else "present:" + call.resourcePath)))
    else None
  }

  /** What the write's response decides; None means the write landed and may be sealed. */
  function WriteRefusal(call: Call, observed: Option<string>, reply: Option<Reply>): Option<Result> {
    if reply.None? then Some(Refused(CasRequestFailed))
    else if reply.value.status == 412 then
      Some(Drift(call.pin, if reply.value.etag.Some? && reply.value.etag.value != "" then reply.value.etag else observed))
    else if !Ok(reply.value.status) then Some(Refused(UnexpectedHttpStatus(reply.value.status)))
    else if observed.Some? && observed.value != call.pin then Some(IfMatchNotHonored(observed.value))
    else None
  }

  function SealedPreimage(c: Crypto, call: Call): string {
    Attestation.Preimage(call.jti, call.deployment,
                         c.sha256hex(Join([Verb(call), call.resourcePath, call.pin, call.wireBody], US)), call.resourcePath)
  }

  function SealedToken(c: Crypto, call: Call): string {
    var p := SealedPreimage(c, call);
    Attestation.Encode(c, call.kid, p, c.sign(call.key, p))
  }

  // ---------------------------------------------------------------- the origin

  /** One representation of a resource: its ETag, the executor call that made it, if one did, and the request. */
  datatype Rep = Rep(etag: string, writer: Option<nat>, request: Option<Call>)

  /** Every representation each URL has had, oldest first: nothing is deleted, no ETag comes back. */
  type Origin = map<string, seq<Rep>>

  function History(o: Origin, url: string): seq<Rep> { if url in o then o[url] else [] }

  predicate FreshEtag(o: Origin, url: string, etag: string) {
    forall k :: 0 <= k < |History(o, url)| ==> History(o, url)[k].etag != etag
  }

  function Append(o: Origin, url: string, r: Rep): Origin { o[url := History(o, url) + [r]] }

  /** A 404 means no representation; a 2xx shows the current one (possibly without its ETag). */
  predicate HonestGet(o: Origin, url: string, reply: Option<Reply>) {
    reply.Some? ==>
      var h := History(o, url);
      && (reply.value.status == 404 ==> h == [])
      && (Ok(reply.value.status) ==> h != [] && (reply.value.etag.Some? ==> reply.value.etag.value == h[|h| - 1].etag))
  }

  /** If-Match with the pin, or If-None-Match: * for a create-only pin (sections 13.1.1 and 13.1.2 of RFC 9110). */
  predicate Precondition(o: Origin, call: Call) {
    var h := History(o, UrlOf(call));
    if IsCreateIntentPin(call.pin) then h == [] else h != [] && h[|h| - 1].etag == call.pin
  }

  /**
   * same(a, b): the origin takes request a for a repeat of request b. An origin that implements
   * idempotency keys compares the keys, one that follows section 13.1.1 of RFC 9110 the requested change;
   * one that does neither relates nothing. foreign(r): some other user agent may make request r.
   */
  datatype World = World(c: Crypto, same: (Call, Call) -> bool, foreign: Call -> bool)

  /** The request carries the grant id as its Idempotency-Key. */
  function IdempotencyKey(call: Call): string { call.jti }

  predicate SameKey(a: Call, b: Call) { IdempotencyKey(a) == IdempotencyKey(b) }

  predicate SameChange(a: Call, b: Call) { Verb(a) == Verb(b) && a.wireBody == b.wireBody }

  /** The k-th representation at this URL was made by a request this one repeats. */
  predicate ReplayOf(w: World, o: Origin, call: Call, k: nat) {
    k < |History(o, UrlOf(call))| && History(o, UrlOf(call))[k].request.Some?
    && w.same(call, History(o, UrlOf(call))[k].request.value)
  }

  predicate Replayable(w: World, o: Origin, call: Call) {
    exists k :: 0 <= k < |History(o, UrlOf(call))| && ReplayOf(w, o, call, k)
  }

  /**
   * An honouring origin writes only if the precondition holds, never answers 412 for a write it made,
   * answers 2xx only for a write it made, now or when the request was first sent, and gives every new
   * representation a fresh ETag. It may refuse a good write, and the answer to a write that was made may
   * be lost.
   */
  predicate HonestPut(w: World, o: Origin, call: Call, reply: Option<Reply>, applied: Option<string>) {
    && (applied.Some? ==> Precondition(o, call) && FreshEtag(o, UrlOf(call), applied.value))
    && (reply.Some? && reply.value.status == 412 ==> applied.None?)
    && (reply.Some? && Ok(reply.value.status) ==> applied.Some? || Replayable(w, o, call))
  }

  // ---------------------------------------------------------------- the machine

  /** seen is how many representations the URL had had when it was observed. */
  datatype Pc =
    | Presented
    | Cleared
    | Watched(etag: Option<string>, seen: nat)
    | Landed(etagAfter: Option<string>)
    | Done(result: Result)
    | Crashed

  /** seen and wrote are history: representations at observation, and the index of this call's own write. */
  datatype Exec = Exec(call: Call, pc: Pc, seen: nat, wrote: Option<nat>)

  datatype State = State(origin: Origin, execs: seq<Exec>)

  const Init := State(map[], [])

  datatype Action =
    | Spawn(call: Call)
    | Start(i: nat, observe: Option<Reply>, probe: Option<Reply>)
    | Observe(i: nat, reply: Option<Reply>)
    | Put(i: nat, reply: Option<Reply>, applied: Option<string>)
    | Seal(i: nat)
    | Crash(i: nat)
    | Foreign(url: string, etag: string, request: Option<Call>)

  predicate Enabled(w: World, s: State, a: Action) {
    match a
    case Spawn(_) => true
    case Start(i, _, _) => i < |s.execs| && s.execs[i].pc.Presented?
    case Observe(i, reply) =>
      i < |s.execs| && s.execs[i].pc.Cleared? && HonestGet(s.origin, UrlOf(s.execs[i].call), reply)
    case Put(i, reply, applied) =>
      i < |s.execs| && s.execs[i].pc.Watched? && HonestPut(w, s.origin, s.execs[i].call, reply, applied)
    case Seal(i) => i < |s.execs| && s.execs[i].pc.Landed?
    case Crash(i) => i < |s.execs| && !s.execs[i].pc.Done? && !s.execs[i].pc.Crashed?
    case Foreign(url, etag, request) =>
      FreshEtag(s.origin, url, etag) && (request.Some? ==> UrlOf(request.value) == url && w.foreign(request.value))
  }

  function Goto(s: State, i: nat, pc: Pc): State
    requires i < |s.execs|
  {
    s.(execs := s.execs[i := s.execs[i].(pc := pc)])
  }

  function ObserveStep(s: State, i: nat, reply: Option<Reply>): State
    requires i < |s.execs|
  {
    var call, o := s.execs[i].call, ObserveEtag(reply);
    var refusal := ObserveRefusal(call, o);
    var seen := |History(s.origin, UrlOf(call))|;
    s.(execs := s.execs[i := s.execs[i].(
      pc := if refusal.Some? then Done(refusal.value) else Watched(if o.Observed? then o.etag else None, seen),
      seen := seen)])
  }

  function PutStep(s: State, i: nat, reply: Option<Reply>, applied: Option<string>): State
    requires i < |s.execs| && s.execs[i].pc.Watched?
  {
    var call := s.execs[i].call;
    var url := UrlOf(call);
    var refusal := WriteRefusal(call, s.execs[i].pc.etag, reply);
    var pc := if refusal.Some? then Done(refusal.value) else Landed(if reply.Some? then reply.value.etag else None);
    if applied.None? then Goto(s, i, pc)
    else
      State(Append(s.origin, url, Rep(applied.value, Some(i), Some(call))),
            s.execs[i := s.execs[i].(pc := pc, wrote := Some(|History(s.origin, url)|))])
  }

  function Next(w: World, s: State, a: Action): State
    requires Enabled(w, s, a)
  {
    match a
    case Spawn(call) => s.(execs := s.execs + [Exec(call, Presented, 0, None)])
    case Start(i, observe, probe) =>
      var call := s.execs[i].call;
      var refusal := Precheck(call);
      var blocked := CanaryGateRefusal(CanaryOf(call, observe, probe));
      Goto(s, i, if refusal.Some? then Done(Refused(refusal.value))
                 else if blocked.Some? then Done(Refused(blocked.value)) else Cleared)
    case Observe(i, reply) => ObserveStep(s, i, reply)
    case Put(i, reply, applied) => PutStep(s, i, reply, applied)
    case Seal(i) =>
      var call := s.execs[i].call;
      Goto(s, i, Done(Success(SealedToken(w.c, call), SealedPreimage(w.c, call), s.execs[i].pc.etagAfter)))
    case Crash(i) => Goto(s, i, Crashed)
    case Foreign(url, etag, request) => s.(origin := Append(s.origin, url, Rep(etag, None, request)))
  }

  function Run(w: World, acts: seq<Action>): Option<State> {
    if acts == [] then Some(Init)
    else
      var before := Run(w, acts[..|acts| - 1]);
      var a := acts[|acts| - 1];
      if before.Some? && Enabled(w, before.value, a) then Some(Next(w, before.value, a)) else None
  }
}
