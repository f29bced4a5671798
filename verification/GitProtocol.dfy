/**
 * The git executor as a step machine: any number of concurrent gitAtomicExecute calls, interleaved
 * with hook-filtered pushes, the passing of time, crashes and reclaim of ledger entries.
 */
module GitProtocol {
  import opened Text
  import opened Crypto
  import opened Clock
  import opened Reclaim
  import opened GitStore
  import Attestation

  /** The arguments of one gitAtomicExecute call; "" stands for a missing string, None for a non-string pin. */
  datatype Call = Call(
    jti: string,
    grantDeployment: string,
    deployment: string,
    ref: string,
    pin: Option<string>,
    newSha: string,
    operation: string,
    kid: string,
    key: Key)

  /** Refusals with no side effect, named by the code's reason strings. */
  datatype Refusal =
    | DeploymentIdMismatch
    | MissingJti
    | NewShaNot40Hex
    | MissingExpectedOldSha
    | DelimiterInField
    | GrantAlreadyConsumed
    | GrantAlreadyConsumedCrossRef

  datatype Result =
    | Refused(why: Refusal)
    | Drift(challenged: string, current: string)
    | Success(token: string, preimage: string)

  predicate IsCallerSuppliedPin(pin: Option<string>) {
    pin.Some? && pin.value != "" && (IsSha(pin.value) || StartsWith(pin.value, "absent:"))
  }

  /** The refusals decided before any side effect, in the order the code tests them. */
  function Precheck(call: Call): Option<Refusal> {
    if call.deployment == "" || call.grantDeployment != call.deployment then Some(DeploymentIdMismatch)
    else if call.jti == "" then Some(MissingJti)
    else if !IsSha(call.newSha) then Some(NewShaNot40Hex)
    else if !IsCallerSuppliedPin(call.pin) then Some(MissingExpectedOldSha)
    else if !Free([call.ref, call.jti, call.deployment, call.pin.value, call.newSha], '|') then Some(DelimiterInField)
    else None
  }

  function Oid(call: Call): string { Lower(call.newSha) }

  /** The old value the batch compares with: the empty text of an absent: pin means "must not exist". */
  function OldOid(pin: string): string {
    if StartsWith(pin, "absent:") then ZERO else Lower(pin)
  }

  /** The one ref transaction: ledger claim and target move together. */
  function Attempt(host: Host, repo: Repo, call: Call): Option<Repo>
    requires call.pin.Some?
  {
    Batch(host, repo, LedgerRefFor(host.crypto, call.jti), call.ref, Oid(call), OldOid(call.pin.value),
          MarkerOf(call.jti))
  }

  function GitTargetDescriptor(ref: string, pin: string, newSha: string): string {
    "git:" + ref + "@" + pin + "->" + newSha
  }

  function SealedPreimage(c: Crypto, call: Call): string
    requires call.pin.Some?
  {
    var mutation := c.sha256hex(Join([call.ref, call.pin.value, call.newSha, call.operation], US));
    Attestation.Preimage(call.jti, call.deployment, mutation,
                         GitTargetDescriptor(call.ref, call.pin.value, call.newSha))
  }

  function SealedToken(c: Crypto, call: Call): string
    requires call.pin.Some?
  {
    var p := SealedPreimage(c, call);
    Attestation.Encode(c, call.kid, p, c.sign(call.key, p))
  }

  // ---------------------------------------------------------------- the machine

  /** Where one call stands. `at` is the instant its grant was verified, `since` that of its batch. */
  datatype Pc =
    | Presented
    | Verified(at: int)
    | Checked(at: int)
    | Ready(at: int)
    | BatchRefused(since: int)
    | LedgerRead(claimed: bool)
    | Landed
    | Sealed(token: string)
    | Done(result: Result)
    | Crashed

  /** `seen` records how many moves had landed when this call re-read the ledger. */
  datatype Exec = Exec(call: Call, pc: Pc, seen: nat)

  /** History: one entry for every batch that landed. */
  datatype Move = Move(exec: nat, jti: string, ref: string, pin: string, oid: string)

  /**
   * repo and execs are the system; the other fields are history: moves landed, claims created by
   * pushes, grants reclaimed, the moves whose ref was deleted afterwards, the calls that signed, the calls
   * whose re-read of the ledger failed, and those whose grant had been reclaimed by then.
   */
  datatype State = State(
    repo: Repo,
    now: int,
    execs: seq<Exec>,
    moves: seq<Move>,
    pushed: set<string>,
    reclaimed: set<string>,
    lost: set<nat>,
    signed: set<nat>,
    deaf: set<nat>,
    late: set<nat>)

  /**
   * The deployment: signed expiry of each grant, how far a verifier's clock may lag, the longest
   * gap between verification and batch, the longest stall between a refused batch and the re-read of its
   * claim, the leeway reclaim is run with, and whether a git process that only reads may fail to answer.
   */
  datatype Config =
    Config(host: Host, exp: string -> int, lag: nat, gap: nat, stall: nat, leeway: Option<int>, readsFail: bool)

  const Init := State(Repo(map[], map[]), 0, [], [], {}, {}, {}, {}, {}, {})

  /** `heard` says whether the git process lived to give its answer. */
  datatype Action =
    | Spawn(call: Call)
    | Verify(i: nat, lag: int)
    | Check(i: nat)
    | ReadReflog(i: nat, heard: bool)
    | BatchLands(i: nat, heard: bool)
    | BatchFails(i: nat)
    | ReadLedger(i: nat, heard: bool)
    | ReadTarget(i: nat, heard: bool)
    | Seal(i: nat)
    | Return(i: nat)
    | Crash(i: nat)
    | Push(cmds: seq<Command>)
    | Tick(ms: nat)
    | ReclaimEntry(jti: string, grant: GrantMeta, opts: CleanupOpts)

  predicate IsExec(s: State, i: nat) { i < |s.execs| }

  predicate Enabled(cfg: Config, s: State, a: Action) {
    match a
    case Spawn(_) => true
    case Verify(i, lag) =>
      IsExec(s, i) && s.execs[i].pc.Presented? && lag <= cfg.lag && !IsExpiredAt(cfg.exp(s.execs[i].call.jti), s.now - lag)
    case Check(i) => IsExec(s, i) && s.execs[i].pc.Verified?
    case ReadReflog(i, heard) => IsExec(s, i) && s.execs[i].pc.Checked? && (heard || cfg.readsFail)
    case BatchLands(i, _) =>
      IsExec(s, i) && s.execs[i].pc.Ready? && s.execs[i].call.pin.Some? && s.now <= s.execs[i].pc.at + cfg.gap
      && Attempt(cfg.host, s.repo, s.execs[i].call).Some?
    case BatchFails(i) => IsExec(s, i) && s.execs[i].pc.Ready? && s.now <= s.execs[i].pc.at + cfg.gap
    case ReadLedger(i, heard) =>
      IsExec(s, i) && s.execs[i].pc.BatchRefused? && s.now <= s.execs[i].pc.since + cfg.stall && (heard || cfg.readsFail)
    case ReadTarget(i, heard) =>
      IsExec(s, i) && s.execs[i].pc.LedgerRead? && s.execs[i].call.pin.Some? && (heard || cfg.readsFail)
    case Seal(i) => IsExec(s, i) && s.execs[i].pc.Landed? && s.execs[i].call.pin.Some?
    case Return(i) => IsExec(s, i) && s.execs[i].pc.Sealed? && s.execs[i].call.pin.Some?
    case Crash(i) => IsExec(s, i) && !s.execs[i].pc.Done? && !s.execs[i].pc.Crashed?
    case Push(_) => true
    case Tick(_) => true
    case ReclaimEntry(jti, grant, opts) =>
      && opts.now == s.now && opts.leeway == cfg.leeway && grant.exp == At(cfg.exp(jti))
      && CleanupEligibleAt(Some(grant), opts).Eligible?
  }

  /** readRef: a process that failed says what an absent ref says. */
  function HeardRef(host: Host, repo: Repo, ref: string, heard: bool): string {
    if heard then ReadRef(host, repo, ref) else "absent:" + ref
  }

  function Goto(s: State, i: nat, pc: Pc): State
    requires IsExec(s, i)
  {
    s.(execs := s.execs[i := s.execs[i].(pc := pc)])
  }

  /**
   * The batch takes effect. Unless git lives to exit with success, the call takes it for refused: its
   * transaction may be complete when the process is killed.
   */
  function Land(cfg: Config, s: State, i: nat, heard: bool): State
    requires Enabled(cfg, s, BatchLands(i, heard))
  {
    var call := s.execs[i].call;
    Goto(s, i, if heard then Landed else BatchRefused(s.now)).(
      repo := Attempt(cfg.host, s.repo, call).value,
      moves := s.moves + [Move(i, call.jti, call.ref, call.pin.value, Oid(call))])
  }

  /** The moves that landed on one of these refs. */
  function MovesOn(moves: seq<Move>, refs: set<string>): set<nat> {
    set k: nat | k < |moves| && moves[k].ref in refs
  }

  function PushStep(cfg: Config, s: State, cmds: seq<Command>): State {
    var repo' := PushResult(cfg.host, s.repo, cmds);
    s.(repo := repo',
       pushed := s.pushed + (repo'.refs.Keys - s.repo.refs.Keys),
       lost := s.lost + (if HookAccepts(cmds) then MovesOn(s.moves, DeletedBy(cfg.host, s.repo, cmds)) else {}))
  }

  /** The claim goes, and with it whatever reflog its ref had. */
  function ReclaimStep(cfg: Config, s: State, jti: string): State {
    var name := LedgerRefFor(cfg.host.crypto, jti);
    s.(repo := Repo(s.repo.refs - {name}, s.repo.reflogs - {name}),
       reclaimed := s.reclaimed + {jti},
       lost := s.lost + MovesOn(s.moves, {name}))
  }

  function Next(cfg: Config, s: State, a: Action): State
    requires Enabled(cfg, s, a)
  {
    match a
    case Spawn(call) => s.(execs := s.execs + [Exec(call, Presented, 0)])
    case Verify(i, lag) => Goto(s, i, Verified(s.now))
    case Check(i) =>
      var refusal := Precheck(s.execs[i].call);
      Goto(s, i, if refusal.Some? then Done(Refused(refusal.value)) else Checked(s.execs[i].pc.at))
    case ReadReflog(i, heard) =>
      var call := s.execs[i].call;
      Goto(s, i, if heard && MarkerOf(call.jti) in ReflogMarkers(s.repo, call.ref) then Done(Refused(GrantAlreadyConsumed))
                 else Ready(s.execs[i].pc.at))
    case BatchLands(i, heard) => Land(cfg, s, i, heard)
    case BatchFails(i) => Goto(s, i, BatchRefused(s.now))
    case ReadLedger(i, heard) =>
      var name := LedgerRefFor(cfg.host.crypto, s.execs[i].call.jti);
      s.(execs := s.execs[i := s.execs[i].(
           pc := LedgerRead(!StartsWith(HeardRef(cfg.host, s.repo, name, heard), "absent:")),
           seen := |s.moves|)],
         deaf := if heard then s.deaf - {i} else s.deaf + {i},
         late := if s.execs[i].call.jti in s.reclaimed then s.late + {i} else s.late - {i})
    case ReadTarget(i, heard) =>
      var call := s.execs[i].call;
      Goto(s, i, Done(if s.execs[i].pc.claimed then Refused(GrantAlreadyConsumedCrossRef)
                      else Drift(call.pin.value, HeardRef(cfg.host, s.repo, call.ref, heard))))
    case Seal(i) =>
      var call := s.execs[i].call;
      Goto(s, i, Sealed(SealedToken(cfg.host.crypto, call))).(
        signed := s.signed + {i})
    case Return(i) =>
      Goto(s, i, Done(Success(s.execs[i].pc.token, SealedPreimage(cfg.host.crypto, s.execs[i].call))))
    case Crash(i) => Goto(s, i, Crashed)
    case Push(cmds) => PushStep(cfg, s, cmds)
    case Tick(ms) => s.(now := s.now + ms)
    case ReclaimEntry(jti, _, _) => ReclaimStep(cfg, s, jti)
  }

  /** The state a sequence of actions leads to, if every action is enabled when its turn comes. */
  function Run(cfg: Config, acts: seq<Action>): Option<State> {
    if acts == [] then Some(Init)
    else
      var before := Run(cfg, acts[..|acts| - 1]);
      var a := acts[|acts| - 1];
      if before.Some? && Enabled(cfg, before.value, a) then Some(Next(cfg, before.value, a)) else None
  }

  /** No two landed moves carry the same grant. */
  predicate OneUse(moves: seq<Move>) {
    forall i, j :: 0 <= i < j < |moves| ==> moves[i].jti != moves[j].jti
  }

  /** The all-zero id passes the code's 40-hex test, yet git reads it as "delete this ref". */
  predicate Governed(call: Call) { Oid(call) != ZERO }

  ghost predicate GovernedRun(acts: seq<Action>) {
    forall k :: 0 <= k < |acts| && acts[k].Spawn? ==> Governed(acts[k].call)
  }
}
