/**
 * httpAtomicExecute as it runs: request by request against a remote origin that other writers use at
 * the same time. The ghost fields say which run of the machine the conversation is at.
 */
module HttpExecutor {
  import opened Text
  import opened Crypto
  import opened HttpOrigin
  import opened HttpSafety

  /** How a call ends: with an answer, or with the crash hook's throw after the write landed. */
  datatype Answer = Answered(result: Result) | Threw

  class Remote {
    const w: World
    var origin: Origin
    ghost var state: State
    ghost var trace: seq<Action>

    ghost predicate Valid() reads this { Run(w, trace) == Some(state) && state.origin == origin }

    ghost predicate Stands(i: nat, call: Call, pc: Pc) reads this {
      i < |state.execs| && state.execs[i].call == call && state.execs[i].pc == pc
    }

    constructor (w: World)
      ensures Valid() && this.w == w && trace == []
    {
      this.w := w;
      origin, state, trace := map[], Init, [];
    }

    ghost method Advance(a: Action)
      requires Run(w, trace) == Some(state) && Enabled(w, state, a) && Next(w, state, a).origin == origin
      modifies this`state, this`trace
      ensures Valid() && state == Next(w, old(state), a) && trace == old(trace) + [a]
    {
      assert (trace + [a])[..|trace|] == trace;
      state, trace := Next(w, state, a), trace + [a];
    }

    /** Between two requests other writers may have replaced any representation, any number of times. */
    method Meanwhile(ghost i: nat, ghost call: Call, ghost pc: Pc)
      requires Valid() && Stands(i, call, pc)
      modifies this
      ensures Valid() && Stands(i, call, pc) && old(trace) <= trace
    {
      var writes: nat := *;
      while writes > 0
        invariant Valid() && Stands(i, call, pc) && old(trace) <= trace
      {
        var url: string, etag: string, request: Option<Call> := *, *, *;
        if FreshEtag(origin, url, etag) && (request.Some? ==> UrlOf(request.value) == url && w.foreign(request.value)) {
          origin := Append(origin, url, Rep(etag, None, request));
          Advance(Foreign(url, etag, request));
        }
        writes := writes - 1;
      }
    }

    /** A GET: the network may lose it, but what arrives is honest. */
    method Get(url: string) returns (reply: Option<Reply>)
      ensures HonestGet(origin, url, reply)
    {
      reply := *;
      if !HonestGet(origin, url, reply) { reply := None; }
    }

    /** The conditional write: the pin or the create-only precondition, and the idempotency key, on the wire. */
    method PutIf(i: nat, call: Call) returns (reply: Option<Reply>, applied: Option<string>)
      modifies this`origin
      ensures HonestPut(w, old(origin), call, reply, applied)
      ensures origin == if applied.Some? then Append(old(origin), UrlOf(call), Rep(applied.value, Some(i), Some(call))) else old(origin)
    {
      reply, applied := *, *;
      if !HonestPut(w, origin, call, reply, applied) { reply, applied := None, None; }
      if applied.Some? { origin := Append(origin, UrlOf(call), Rep(applied.value, Some(i), Some(call))); }
    }

    /** The refusals before the observation, the opt-in probe included. */
    method StartCall(i: nat, call: Call) returns (refusal: Option<Refusal>)
      requires Valid() && Stands(i, call, Presented)
      modifies this
      ensures Valid() && old(trace) <= trace
      ensures match refusal case Some(why) => Stands(i, call, Done(Refused(why)))
                            case None => Stands(i, call, Cleared) && Precheck(call).None?
      ensures Precheck(call).Some? ==> refusal == Precheck(call)
      ensures call.canary.GivenCanary? && call.canary.honored != CANARY_HONORS ==> refusal.Some?
    {
      refusal := Precheck(call);
      var observe, probe := None, None;
      if refusal.None? {
        if call.canary.ProbeCanary? {
          observe := Get(UrlOf(call));
          Meanwhile(i, call, Presented);
          probe := *;
        }
        refusal := CanaryGateRefusal(CanaryOf(call, observe, probe));
      }
      Advance(Start(i, observe, probe));
    }

    /** The observation, which must show a strong current ETag (or nothing, for a create-only pin). */
    method ObserveCall(i: nat, call: Call) returns (r: Option<Result>, observed: Option<string>, ghost seen: nat)
      requires Valid() && Stands(i, call, Cleared)
      modifies this`state, this`trace
      ensures Valid() && old(trace) <= trace
      ensures match r case Some(result) => Stands(i, call, Done(result)) && !result.Success?
                      case None => Stands(i, call, Watched(observed, seen))
    {
      var reply := Get(UrlOf(call));
      var o := ObserveEtag(reply);
      r := ObserveRefusal(call, o);
      observed := if o.Observed? then o.etag else None;
      seen := |History(origin, UrlOf(call))|;
      Advance(Observe(i, reply));
    }

    /** The write and what its answer decides. */
    method WriteCall(i: nat, call: Call, observed: Option<string>, ghost seen: nat)
      returns (r: Option<Result>, etagAfter: Option<string>)
      requires Valid() && Stands(i, call, Watched(observed, seen))
      modifies this
      ensures Valid() && old(trace) <= trace
      ensures match r case Some(result) => Stands(i, call, Done(result)) && !result.Success?
                      case None => Stands(i, call, Landed(etagAfter))
    {
      var reply, applied := PutIf(i, call);
      r := WriteRefusal(call, observed, reply);
      etagAfter := if reply.Some? then reply.value.etag else None;
      Advance(Put(i, reply, applied));
    }

    /** From the cleared call to its answer: observe, write, seal, with the world moving in between. */
    method ObserveAndWrite(i: nat, call: Call, crashBeforeSeal: bool) returns (answer: Answer)
      requires Valid() && Stands(i, call, Cleared)
      modifies this
      ensures Valid() && old(trace) <= trace
      ensures Stands(i, call, if answer.Threw? then Crashed else Done(answer.result))
      ensures answer.Threw? ==> crashBeforeSeal
    {
      Meanwhile(i, call, Cleared);
      var r, observed, seen := ObserveCall(i, call);
      if r.Some? { return Answered(r.value); }
      Meanwhile(i, call, Watched(observed, seen));
      var etagAfter;
      r, etagAfter := WriteCall(i, call, observed, seen);
      if r.Some? { return Answered(r.value); }
      if crashBeforeSeal {
        Advance(Crash(i));
        return Threw;
      }
      Advance(Seal(i));
      answer := Answered(Success(SealedToken(w.c, call), SealedPreimage(w.c, call), etagAfter));
    }

    /**
     * One call, with other writers active throughout. Success means its own write is in the history of
     * its URL, right after the representation it was pinned to, or the write of a request the origin
     * takes this one for a repeat of.
     */
    method HttpAtomicExecute(i: nat, call: Call, crashBeforeSeal: bool) returns (answer: Answer)
      requires Valid() && Stands(i, call, Presented)
      modifies this
      ensures Valid() && old(trace) <= trace
      ensures Stands(i, call, if answer.Threw? then Crashed else Done(answer.result))
      ensures answer.Threw? ==> crashBeforeSeal
      ensures Precheck(call).Some? ==> answer == Answered(Refused(Precheck(call).value))
      ensures answer.Answered? && answer.result.Success? ==>
                exists k: nat :: ReplayOf(w, origin, call, k)
                  || (AppliedToPin(origin, call, k) && History(origin, UrlOf(call))[k].writer == Some(i))
    {
      var refusal := StartCall(i, call);
      if refusal.Some? { return Answered(Refused(refusal.value)); }
      answer := ObserveAndWrite(i, call, crashBeforeSeal);
      SafeRun(w, trace);
      assert ExecOk(w, state, state.execs[i], i);
      if answer.Answered? && answer.result.Success? {
        if state.execs[i].wrote.Some? {
          assert AppliedToPin(origin, call, state.execs[i].wrote.value);
        } else {
          ghost var k: nat :| k < |History(origin, UrlOf(call))| && ReplayOf(w, origin, call, k);
        }
      }
    }
  }
}
