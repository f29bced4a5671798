/**
 * The Postgres executor as a step machine: concurrent transactions, each running the gate, the seal and
 * the evidence write under row locks, with committed tables that change only at COMMIT.
 */
module Postgres {
  import opened Text
  import opened Crypto
  import opened PgTables
  import Attestation

  // ---------------------------------------------------------------- one vocabulary for both grant versions

  datatype Payload =
    | V1(jti: Option<string>, scopeHash: Option<string>, deployment: string, stateNonce: Option<string>)
    | V2(grantId: Option<string>, afterPayloadHash: Option<string>, executorId: string, nonceHash: string,
         expectedStateToken: string)

  /** nonceHash and expected are "" where the version has none. */
  datatype Grant = Grant(jti: Option<string>, scopeHash: Option<string>, deployment: string, nonce: Option<string>,
                         nonceHash: string, expected: string)

  function NormalizeGrant(p: Payload): Grant {
    match p
    case V1(jti, scopeHash, deployment, nonce) => Grant(jti, scopeHash, deployment, nonce, "", "")
    case V2(grantId, payloadHash, executorId, nonceHash, expected) =>
      Grant(grantId, payloadHash, executorId, None, nonceHash, expected)
  }

  /** The arguments of one atomicExecute call. */
  datatype Call = Call(
    payload: Payload,
    targetId: string,
    operation: string,
    title: string,
    body: string,
    deployment: string,
    presentedNonce: string,
    kid: string,
    key: Key)

  datatype Refusal =
    | DeploymentIdMismatch
    | NoncePreimageAbsent
    | NoncePreimageMismatch
    | UnknownStateNonce
    | StateNonceExpired
    | TargetMismatch
    | StateDrift(challenged: string, current: string)
    | StateTokenMismatch
    | GrantAlreadyConsumed
    | StateNonceReused
    | UnknownOperation
    | SealFailed

  datatype Start = Refuse(why: Refusal) | Go(nonce: Option<string>)

  /** Everything decided before BEGIN. A v2 grant's nonce arrives from the caller and must match its signed hash. */
  function BeforeBegin(c: Crypto, call: Call): Start {
    var g := NormalizeGrant(call.payload);
    if call.deployment == "" || g.deployment != call.deployment then Refuse(DeploymentIdMismatch)
    else if g.nonceHash == "" then Go(g.nonce)
    else if call.presentedNonce == "" then Refuse(NoncePreimageAbsent)
    else if Sha256Pref(c, call.presentedNonce) != g.nonceHash then Refuse(NoncePreimageMismatch)
    else Go(Some(call.presentedNonce))
  }

  function KeyOf(call: Call): GrantKey {
    var g := NormalizeGrant(call.payload);
    (call.deployment, if g.jti.Some? then g.jti.value else "")
  }

  // ---------------------------------------------------------------- the gate

  /** The row with this id, if there is one. */
  function ArticleAt(tables: Tables, id: string): Option<Article> {
    if id in tables.articles then Some(tables.articles[id]) else None
  }

  function DigestOf(c: Crypto, target: string, row: Option<Article>): string {
    match row
    case Some(a) => Sha256Pref(c, Join(["row", target, a.title, a.body, a.updatedAt], ':'))
    case None => Sha256Pref(c, "absent:" + target)
  }

  function CurrentDigest(c: Crypto, tables: Tables, target: string): string {
    DigestOf(c, target, ArticleAt(tables, target))
  }

  /** Gate steps (1) and (1b), under the lock on the challenge row. */
  function CheckState(c: Crypto, tables: Tables, call: Call, nonce: Option<string>, now: int): Option<Refusal> {
    if nonce.None? || nonce.value !in tables.challenges then Some(UnknownStateNonce)
    else
      var ch := tables.challenges[nonce.value];
      var current := CurrentDigest(c, tables, call.targetId);
      var expected := NormalizeGrant(call.payload).expected;
      if ch.expiresAt < now then Some(StateNonceExpired)
      else if ch.targetId != call.targetId then Some(TargetMismatch)
      else if current != ch.digest then Some(StateDrift(ch.digest, current))
      else if expected != "" && expected != ch.digest then Some(StateTokenMismatch)
      else None
  }

  /** Gate step (2): the INSERT and its unique violation, then the reused-nonce check. */
  function CheckClaim(tables: Tables, call: Call, nonce: string): Option<Refusal> {
    var g := NormalizeGrant(call.payload);
    if g.jti.None? || g.scopeHash.None? then Some(SealFailed)
    else if KeyOf(call) in tables.grants then Some(GrantAlreadyConsumed)
    else if nonce in tables.challenges && tables.challenges[nonce].consumed then Some(StateNonceReused)
    else None
  }

  /** What the operation did to articles; a DELETE that found no row did nothing. */
  datatype Mutation = Inserted(id: string, title: string, body: string) | Deleted(id: string, title: string, body: string) | NoRow

  function MutationDigest(c: Crypto, m: Mutation): string {
    if m.NoRow? then c.sha256hex(Join(["", "", ""], US)) else c.sha256hex(Join([m.id, m.title, m.body], US))
  }

  function GatePreimage(c: Crypto, call: Call, m: Mutation): string {
    Attestation.Preimage(KeyOf(call).1, call.deployment, MutationDigest(c, m), call.targetId)
  }

  // ---------------------------------------------------------------- seal and evidence

  /** cap_seal on a row this transaction holds unsigned: its remaining ways to raise. */
  predicate SealAccepts(c: Crypto, call: Call, preimage: string, preimageHash: string, signature: string) {
    call.deployment != "" && KeyOf(call).1 != "" && signature != "" && preimage != ""
    && preimageHash == Sha256Pref(c, preimage)
  }

  /** `split_part(s, '|', n)`, n from 1. */
  function SplitPart(s: string, n: nat): string
    requires n >= 1
  {
    var parts := Split(s, '|');
    if n <= |parts| then parts[n - 1] else ""
  }

  /** cap_persist_attestation on this row: the token must carry the row's preimage and signature. */
  predicate PersistAccepts(c: Crypto, tables: Tables, key: GrantKey, preimage: string, signature: string, token: string) {
    && key.0 != "" && key.1 != "" && token != ""
    && SplitPart(token, 1) == Attestation.ATOMIC_ATTEST_V && SplitPart(token, 4) != "" && SplitPart(token, 5) == ""
    && SplitPart(token, 3) == c.b64(preimage)
    && SplitPart(token, 4) == signature
    && FirstToken(tables.evidence, key).None?
  }

  // ---------------------------------------------------------------- transactions

  datatype Result = Refused(why: Refusal) | Success(token: string, preimage: string)

  /** Where one call stands; between Begun and Persisted its transaction is open. */
  datatype Pc =
    | Presented
    | Begun(requested: Option<string>)
    | Locked(nonce: string)
    | Claimed(nonce: string)
    | Mutated(nonce: string, mutation: Mutation)
    | Sealed(nonce: string, mutation: Mutation)
    | Persisted(nonce: string, mutation: Mutation)
    | Committed(mutation: Mutation)
    | Done(result: Result)
    | Crashed

  datatype Session = Session(call: Call, pc: Pc)

  /**
   * History of one call's target row: as the gate's check saw it, and as the last write that fell
   * between that check and the call's own write left it, if there was one.
   */
  datatype Watch = Watch(checked: Option<Article>, between: Option<Option<Article>>)

  /** What the call's own write finds. */
  function Found(w: Watch): Option<Article> { if w.between.Some? then w.between.value else w.checked }

  /**
   * History: one entry for every transaction that committed, and whether the server's acknowledgement of
   * the COMMIT reached the caller.
   */
  datatype Commit = Commit(session: nat, key: GrantKey, nonce: string, mutation: Mutation, watch: Watch, acked: bool)

  /** commits and watches are history. */
  datatype State = State(
    tables: Tables,
    nextId: nat,
    now: int,
    sessions: seq<Session>,
    commits: seq<Commit>,
    watches: map<nat, Watch>)

  const Init := State(Tables(map[], [], map[], map[]), 1, 0, [], [], map[])

  predicate HoldsNonce(s: Session, nonce: string) {
    (s.pc.Locked? || s.pc.Claimed? || s.pc.Mutated? || s.pc.Sealed? || s.pc.Persisted?) && s.pc.nonce == nonce
  }

  predicate HoldsKey(s: Session, key: GrantKey) {
    (s.pc.Claimed? || s.pc.Mutated? || s.pc.Sealed? || s.pc.Persisted?) && KeyOf(s.call) == key
  }

  predicate HoldsArticle(s: Session, id: string) {
    (s.pc.Mutated? || s.pc.Sealed? || s.pc.Persisted?) && s.pc.mutation.Deleted? && s.pc.mutation.id == id
  }

  function Signature(c: Crypto, call: Call, m: Mutation): string { c.sign(call.key, GatePreimage(c, call, m)) }

  function Token(c: Crypto, call: Call, m: Mutation): string {
    Attestation.Encode(c, call.kid, GatePreimage(c, call, m), Signature(c, call, m))
  }

  function SealedRow(c: Crypto, call: Call, m: Mutation): GrantRow {
    var scope := NormalizeGrant(call.payload).scopeHash;
    GrantRow(if scope.Some? then scope.value else "", "sealed", Some(GatePreimage(c, call, m)), Some(Signature(c, call, m)))
  }

  function Mutate(articles: map<string, Article>, m: Mutation, at: string): map<string, Article> {
    match m
    case Inserted(id, title, body) => articles[id := Article(title, body, at)]
    case Deleted(id, _, _) => articles - {id}
    case NoRow => articles
  }

  /** The tables after one transaction: its row, its evidence, its mutation and its spent challenge, all at once. */
  function Apply(c: Crypto, t: Tables, call: Call, nonce: string, m: Mutation, at: string): Tables {
    Tables(
      t.grants[KeyOf(call) := SealedRow(c, call, m)],
      t.evidence + [Evidence(KeyOf(call).0, KeyOf(call).1, Token(c, call, m))],
      Mutate(t.articles, m, at),
      if nonce in t.challenges then t.challenges[nonce := t.challenges[nonce].(consumed := true)] else t.challenges)
  }

  /** The steps of one call, COMMIT apart. */
  datatype Kind = Begin | Lock | Claim | Write | Seal | Persist | Return | Abort | Crash

  datatype Action =
    | Spawn(call: Call)
    | Do(i: nat, kind: Kind)
    | CommitTx(i: nat, at: string, acked: bool)
    | Issue(nonce: string, challenge: Challenge)
    | Edit(id: string, article: Option<Article>)
    | Tick(ms: nat)

  /** The call stands at this step and no other open transaction holds the row it needs. */
  predicate Ready(s: State, i: nat, kind: Kind)
    requires i < |s.sessions|
  {
    var x := s.sessions[i];
    match kind
    case Begin => x.pc.Presented?
    case Lock =>
      x.pc.Begun? && forall j :: 0 <= j < |s.sessions| && j != i && x.pc.requested.Some? ==>
        !HoldsNonce(s.sessions[j], x.pc.requested.value)
    case Claim =>
      x.pc.Locked? && forall j :: 0 <= j < |s.sessions| && j != i ==> !HoldsKey(s.sessions[j], KeyOf(x.call))
    case Write =>
      x.pc.Claimed? && forall j :: 0 <= j < |s.sessions| && j != i ==> !HoldsArticle(s.sessions[j], x.call.targetId)
    case Seal => x.pc.Mutated?
    case Persist => x.pc.Sealed?
    case Return => x.pc.Committed?
    case Abort => x.pc.Begun? || x.pc.Locked? || x.pc.Claimed? || x.pc.Mutated? || x.pc.Sealed? || x.pc.Persisted?
    case Crash => !x.pc.Done? && !x.pc.Crashed?
  }

  predicate Enabled(c: Crypto, s: State, a: Action) {
    match a
    case Spawn(_) => true
    case Do(i, kind) => i < |s.sessions| && Ready(s, i, kind)
    case CommitTx(i, _, _) => i < |s.sessions| && s.sessions[i].pc.Persisted?
    case Issue(nonce, ch) => nonce !in s.tables.challenges && !ch.consumed
    case Edit(id, _) => forall j :: 0 <= j < |s.sessions| ==> !HoldsArticle(s.sessions[j], id)
    case Tick(_) => true
  }

  function Decide(refusal: Option<Refusal>, pc: Pc): Pc {
    if refusal.Some? then Done(Refused(refusal.value)) else pc
  }

  datatype Gate = GateOk(mutation: Mutation) | GateNo(why: Refusal)

  /** Gate step (3): publish inserts under a fresh id, deploy deletes the target row. */
  function GateWrite(nextId: nat, articles: map<string, Article>, call: Call): Gate {
    if call.operation == "publish" then
      if Decimal(nextId) in articles then GateNo(SealFailed)
      else GateOk(Inserted(Decimal(nextId), call.title, call.body))
    else if call.operation == "deploy" then
      if call.targetId in articles
      then GateOk(Deleted(call.targetId, articles[call.targetId].title, articles[call.targetId].body))
      else GateOk(NoRow)
    else GateNo(UnknownOperation)
  }

  /** Where the step takes the call. */
  function NextPc(c: Crypto, s: State, i: nat, kind: Kind): Pc
    requires i < |s.sessions| && Ready(s, i, kind)
  {
    var call, pc := s.sessions[i].call, s.sessions[i].pc;
    match kind
    case Begin => (match BeforeBegin(c, call) case Refuse(why) => Done(Refused(why)) case Go(nonce) => Begun(nonce))
    case Lock =>
      Decide(CheckState(c, s.tables, call, pc.requested, s.now),
             Locked(if pc.requested.Some? then pc.requested.value else ""))
    case Claim => Decide(CheckClaim(s.tables, call, pc.nonce), Claimed(pc.nonce))
    case Write =>
      (match GateWrite(s.nextId, s.tables.articles, call)
       case GateOk(m) => Mutated(pc.nonce, m)
       case GateNo(why) => Done(Refused(why)))
    case Seal =>
      var preimage := GatePreimage(c, call, pc.mutation);
      var ok := SealAccepts(c, call, preimage, Sha256Pref(c, preimage), Signature(c, call, pc.mutation));
      Decide(if ok then None else Some(SealFailed), Sealed(pc.nonce, pc.mutation))
    case Persist =>
      var ok := PersistAccepts(c, s.tables, KeyOf(call), GatePreimage(c, call, pc.mutation),
                               Signature(c, call, pc.mutation), Token(c, call, pc.mutation));
      Decide(if ok then None else Some(SealFailed), Persisted(pc.nonce, pc.mutation))
    case Return => Done(Success(Token(c, call, pc.mutation), GatePreimage(c, call, pc.mutation)))
    case Abort => Done(Refused(SealFailed))
    case Crash => Crashed
  }

  function Goto(s: State, i: nat, pc: Pc): State
    requires i < |s.sessions|
  {
    s.(sessions := s.sessions[i := s.sessions[i].(pc := pc)])
  }

  function WatchOf(s: State, i: nat): Watch { if i in s.watches then s.watches[i] else Watch(None, None) }

  /**
   * COMMIT takes effect on the server. Unless its acknowledgement arrives, `await client.query('COMMIT')`
   * throws and the call answers SEAL_FAILED all the same.
   */
  function CommitStep(c: Crypto, s: State, i: nat, at: string, acked: bool): State
    requires i < |s.sessions| && s.sessions[i].pc.Persisted?
  {
    var call, pc := s.sessions[i].call, s.sessions[i].pc;
    Goto(s, i, if acked then Committed(pc.mutation) else Done(Refused(SealFailed))).(
      tables := Apply(c, s.tables, call, pc.nonce, pc.mutation, at),
      commits := s.commits + [Commit(i, KeyOf(call), pc.nonce, pc.mutation, WatchOf(s, i), acked)])
  }

  /** The sequence behind article ids moves on even when its transaction rolls back. */
  function Step(c: Crypto, s: State, a: Action): State
    requires Enabled(c, s, a)
  {
    match a
    case Spawn(call) => s.(sessions := s.sessions + [Session(call, Presented)])
    case Do(i, kind) =>
      Goto(s, i, NextPc(c, s, i, kind)).(
        nextId := if kind.Write? && s.sessions[i].call.operation == "publish" then s.nextId + 1 else s.nextId)
    case CommitTx(i, at, acked) => CommitStep(c, s, i, at, acked)
    case Issue(nonce, ch) => s.(tables := s.tables.(challenges := s.tables.challenges[nonce := ch]))
    case Edit(id, article) =>
      s.(tables := s.tables.(articles :=
        if article.Some? then s.tables.articles[id := article.value] else s.tables.articles - {id}))
    case Tick(ms) => s.(now := s.now + ms)
  }

  /** The row a step writes in the committed tables. */
  function Touched(s: State, a: Action): Option<string> {
    match a
    case Edit(id, _) => Some(id)
    case CommitTx(i, _, _) =>
      if i < |s.sessions| && s.sessions[i].pc.Persisted? && !s.sessions[i].pc.mutation.NoRow?
      then Some(s.sessions[i].pc.mutation.id) else None
    case _ => None
  }

  /** Between the check and the write. */
  predicate Waiting(s: State, i: nat) { i < |s.sessions| && (s.sessions[i].pc.Locked? || s.sessions[i].pc.Claimed?) }

  /** s' follows s by a: a call that just passed its check starts its watch, waiting calls see their row touched. */
  function Watches(s: State, a: Action, s': State): map<nat, Watch>
    requires |s'.sessions| >= |s.sessions|
  {
    if a.Do? && a.kind.Lock? && a.i < |s.sessions| && s'.sessions[a.i].pc.Locked?
    then s.watches[a.i := Watch(ArticleAt(s.tables, s.sessions[a.i].call.targetId), None)]
    else map i | i in s.watches :: Seen(s, a, s', i)
  }

  function Seen(s: State, a: Action, s': State, i: nat): Watch
    requires i in s.watches
  {
    if Waiting(s, i) && Touched(s, a) == Some(s.sessions[i].call.targetId)
    then s.watches[i].(between := Some(ArticleAt(s'.tables, s.sessions[i].call.targetId)))
    else s.watches[i]
  }

  function Next(c: Crypto, s: State, a: Action): State
    requires Enabled(c, s, a)
  {
    var s' := Step(c, s, a);
    s'.(watches := Watches(s, a, s'))
  }

  function Run(c: Crypto, acts: seq<Action>): Option<State> {
    if acts == [] then Some(Init)
    else
      var before := Run(c, acts[..|acts| - 1]);
      var a := acts[|acts| - 1];
      if before.Some? && Enabled(c, before.value, a) then Some(Next(c, before.value, a)) else None
  }
}
