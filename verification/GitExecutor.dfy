/**
 * gitAtomicExecute as it runs: one call, step by step, on a repository object. The ghost fields say
 * which run of the step machine the object is at, so every theorem about runs is about this code.
 */
module GitExecutor {
  import opened Text
  import opened Crypto
  import opened GitStore
  import opened GitProtocol
  import Attestation

  /** How a call ends: with an answer, or with the crash hook's throw after the ref moved. */
  datatype Answer = Answered(result: Result) | Threw

  /** The git processes of one call that do not live to give their answer. */
  datatype Kills = Kills(reflog: bool, batch: bool, ledger: bool, target: bool)

  predicate Possible(cfg: Config, kills: Kills) { kills.reflog || kills.ledger || kills.target ==> cfg.readsFail }

  /** The answer two re-reads give a call whose batch was refused. */
  function Explanation(host: Host, repo: Repo, call: Call, kills: Kills): Result
    requires call.pin.Some?
  {
    if StartsWith(HeardRef(host, repo, LedgerRefFor(host.crypto, call.jti), !kills.ledger), "absent:")
    then Drift(call.pin.value, HeardRef(host, repo, call.ref, !kills.target)) else Refused(GrantAlreadyConsumedCrossRef)
  }

  class Repository {
    const cfg: Config
    var refs: map<string, string>
    var reflogs: map<string, seq<string>>
    ghost var state: State
    ghost var trace: seq<Action>

    function Contents(): Repo reads this { Repo(refs, reflogs) }

    ghost predicate Valid() reads this {
      Run(cfg, trace) == Some(state) && state.repo == Contents()
    }

    /** The call in slot i stands at pc. */
    ghost predicate Stands(i: nat, call: Call, pc: Pc) reads this {
      i < |state.execs| && state.execs[i].call == call && state.execs[i].pc == pc
    }

    constructor (cfg: Config)
      ensures Valid() && this.cfg == cfg && trace == []
    {
      this.cfg := cfg;
      refs, reflogs, state, trace := map[], map[], Init, [];
    }

    /** One more action of the machine, for a change already made to the stores. */
    ghost method Advance(a: Action)
      requires Run(cfg, trace) == Some(state) && Enabled(cfg, state, a) && Next(cfg, state, a).repo == Contents()
      modifies this`state, this`trace
      ensures Valid() && state == Next(cfg, old(state), a) && trace == old(trace) + [a]
    {
      assert (trace + [a])[..|trace|] == trace;
      state, trace := Next(cfg, state, a), trace + [a];
    }

    /** `git update-ref --stdin` with the claim and the move: locks, compares both, then writes both. */
    method UpdateBoth(ledgerRef: string, ref: string, newOid: string, oldOid: string, msg: string) returns (ok: bool)
      modifies this`refs, this`reflogs
      ensures ok <==> Batch(cfg.host, old(Contents()), ledgerRef, ref, newOid, oldOid, msg).Some?
      ensures ok ==> Batch(cfg.host, old(Contents()), ledgerRef, ref, newOid, oldOid, msg) == Some(Contents())
      ensures !ok ==> Contents() == old(Contents())
    {
      if ref == ledgerRef { return false; }
      var claimed := RefWrite(cfg.host, Contents(), ledgerRef, newOid, ZERO, msg);
      if claimed.None? { return false; }
      var moved := RefWrite(cfg.host, claimed.value, ref, newOid, oldOid, msg);
      if moved.None? { return false; }
      refs, reflogs := moved.value.refs, moved.value.reflogs;
      ok := true;
    }

    /** Steps (1) and (2): the refusals without side effect. */
    method CheckCall(ghost i: nat, call: Call, ghost at: int, kills: Kills) returns (refusal: Option<Refusal>)
      requires Valid() && Stands(i, call, Verified(at)) && Possible(cfg, kills)
      modifies this`state, this`trace
      ensures Valid() && old(trace) <= trace && state.now == old(state).now
      ensures match refusal case Some(why) => Stands(i, call, Done(Refused(why)))
                            case None => Stands(i, call, Ready(at)) && Precheck(call).None?
      ensures refusal == if Precheck(call).Some? then Precheck(call)
                         else if !kills.reflog && MarkerOf(call.jti) in ReflogMarkers(old(Contents()), call.ref)
                         then Some(GrantAlreadyConsumed) else None
    {
      refusal := Precheck(call);
      Advance(Check(i));
      if refusal.None? {
        var lines := if kills.reflog then [] else ReflogMarkers(Contents(), call.ref);
        Advance(ReadReflog(i, !kills.reflog));
        if MarkerOf(call.jti) in lines { refusal := Some(GrantAlreadyConsumed); }
      }
    }

    /** The failed batch: two re-reads decide which of the two facts to report. */
    method ExplainFailure(ghost i: nat, call: Call, ghost since: int, kills: Kills) returns (r: Result)
      requires Valid() && Stands(i, call, BatchRefused(since)) && call.pin.Some? && Possible(cfg, kills)
      requires state.now <= since + cfg.stall
      modifies this`state, this`trace
      ensures Valid() && old(trace) <= trace && Stands(i, call, Done(r))
      ensures r == Explanation(cfg.host, Contents(), call, kills)
    {
      var ledgerNow := HeardRef(cfg.host, Contents(), LedgerRefFor(cfg.host.crypto, call.jti), !kills.ledger);
      Advance(ReadLedger(i, !kills.ledger));
      var current := HeardRef(cfg.host, Contents(), call.ref, !kills.target);
      Advance(ReadTarget(i, !kills.target));
      if !StartsWith(ledgerNow, "absent:") { return Refused(GrantAlreadyConsumedCrossRef); }
      return Drift(call.pin.value, current);
    }

    /** After the ref moved: evidence production only, or the crash hook. */
    method Evidence(ghost i: nat, call: Call, crashBeforeSeal: bool) returns (answer: Answer)
      requires Valid() && Stands(i, call, Landed) && call.pin.Some?
      modifies this`state, this`trace
      ensures Valid() && old(trace) <= trace
      ensures if crashBeforeSeal then answer.Threw? && Stands(i, call, Crashed)
              else answer.Answered? && Stands(i, call, Done(answer.result))
                   && answer.result == Success(SealedToken(cfg.host.crypto, call), SealedPreimage(cfg.host.crypto, call))
    {
      if crashBeforeSeal {
        Advance(Crash(i));
        return Threw;
      }
      var c := cfg.host.crypto;
      var target := GitTargetDescriptor(call.ref, call.pin.value, call.newSha);
      var mutation := c.sha256hex(Join([call.ref, call.pin.value, call.newSha, call.operation], US));
      var preimage := Attestation.Preimage(call.jti, call.deployment, mutation, target);
      var signature := c.sign(call.key, preimage);
      Advance(Seal(i));
      Advance(Return(i));
      return Answered(Success(Attestation.Encode(c, call.kid, preimage, signature), preimage));
    }

    /** The repository after this call's batch: its whole effect, or none of it. */
    function AfterBatch(before: Repo, call: Call): Repo
      requires call.pin.Some?
    {
      var landed := Attempt(cfg.host, before, call);
      if landed.Some? then landed.value else before
    }

    /** The one batch. Where git is killed after its transaction completed, it reads as refused all the same. */
    method AttemptBatch(ghost i: nat, call: Call, ghost at: int, killed: bool) returns (ok: bool)
      requires Valid() && Stands(i, call, Ready(at)) && call.pin.Some? && state.now <= at + cfg.gap
      modifies this
      ensures Valid() && old(trace) <= trace
      ensures ok <==> Attempt(cfg.host, old(Contents()), call).Some? && !killed
      ensures Contents() == AfterBatch(old(Contents()), call)
      ensures state.now == old(state).now && Stands(i, call, if ok then Landed else BatchRefused(state.now))
    {
      ok := UpdateBoth(LedgerRefFor(cfg.host.crypto, call.jti), call.ref, Oid(call), OldOid(call.pin.value),
                       MarkerOf(call.jti));
      if ok {
        Advance(BatchLands(i, !killed));
        ok := !killed;
      } else {
        Advance(BatchFails(i));
      }
    }

    /** Step (3) onwards, for a call that was not refused. */
    method MoveAndSeal(ghost i: nat, call: Call, ghost at: int, crashBeforeSeal: bool, kills: Kills)
      returns (answer: Answer)
      requires Valid() && Stands(i, call, Ready(at)) && call.pin.Some? && state.now <= at + cfg.gap && Possible(cfg, kills)
      modifies this
      ensures Valid() && old(trace) <= trace
      ensures Stands(i, call, if answer.Threw? then Crashed else Done(answer.result))
      ensures Contents() == AfterBatch(old(Contents()), call)
      ensures answer.Threw? || answer.result.Success? <==> Attempt(cfg.host, old(Contents()), call).Some? && !kills.batch
      ensures answer.Answered? && answer.result.Success? ==>
                answer.result.token == SealedToken(cfg.host.crypto, call)
      ensures answer.Answered? && !answer.result.Success? ==>
                answer.result == Explanation(cfg.host, Contents(), call, kills)
      ensures answer.Threw? ==> crashBeforeSeal
    {
      var ok := AttemptBatch(i, call, at, kills.batch);
      if !ok {
        var r := ExplainFailure(i, call, state.now, kills);
        return Answered(r);
      }
      answer := Evidence(i, call, crashBeforeSeal);
    }

    /** The batch landed although its answer only explains a refusal. */
    ghost predicate BatchUnheard(before: Repo, call: Call, kills: Kills, r: Result) reads this {
      && kills.batch && Precheck(call).None? && Attempt(cfg.host, before, call) == Some(Contents())
      && r == Explanation(cfg.host, Contents(), call, kills)
    }

    /**
     * One call, from its verified grant to its answer. Either the repository is untouched or it shows
     * exactly the batch's effect: the latter under success, under a crash after the batch, and under an
     * answer that explains a batch taken for refused because git was killed once it was through. The
     * object is then at a run of the machine in which slot i ended the same way.
     */
    method GitAtomicExecute(ghost i: nat, call: Call, ghost at: int, crashBeforeSeal: bool, kills: Kills)
      returns (answer: Answer)
      requires Valid() && Stands(i, call, Verified(at)) && state.now <= at + cfg.gap && Possible(cfg, kills)
      modifies this
      ensures Valid() && old(trace) <= trace
      ensures Stands(i, call, if answer.Threw? then Crashed else Done(answer.result))
      ensures answer.Threw? || answer.result.Success? ==>
                Precheck(call).None? && Attempt(cfg.host, old(Contents()), call) == Some(Contents()) && !kills.batch
      ensures answer.Answered? && !answer.result.Success? ==>
                Contents() == old(Contents()) || BatchUnheard(old(Contents()), call, kills, answer.result)
      ensures answer.Answered? && answer.result.Success? ==>
                answer.result.token == SealedToken(cfg.host.crypto, call)
      ensures answer.Threw? ==> crashBeforeSeal
      ensures Precheck(call).Some? ==> answer == Answered(Refused(Precheck(call).value))
      ensures answer.Answered? && answer.result.Drift? ==> Attempt(cfg.host, old(Contents()), call).None? || kills.batch
    {
      var refusal := CheckCall(i, call, at, kills);
      if refusal.Some? { return Answered(Refused(refusal.value)); }
      answer := MoveAndSeal(i, call, at, crashBeforeSeal, kills);
    }
  }
}
