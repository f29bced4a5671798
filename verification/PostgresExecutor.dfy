/**
 * atomicExecute as it runs: BEGIN, the gate, the seal, the evidence write and COMMIT on a database
 * object. The open transaction works on its own view; only COMMIT publishes it. The ghost fields say
 * which run of the machine the object is at.
 */
module PostgresExecutor {
  import opened Text
  import opened Crypto
  import opened PgTables
  import opened Postgres
  import Attestation

  /** How a call ends: with an answer, or with the crash hook's throw between gate and seal. */
  datatype Answer = Answered(result: Result) | Threw

  /** The gate's row: consumed, not yet sealed. */
  function UnsealedRow(c: Crypto, call: Call, m: Mutation): GrantRow {
    SealedRow(c, call, m).(status := "consumed", attestationRef := None)
  }

  /** A transaction's view once the gate has returned. */
  function Gated(c: Crypto, t: Tables, call: Call, nonce: string, m: Mutation, at: string): Tables {
    Apply(c, t, call, nonce, m, at).(grants := t.grants[KeyOf(call) := UnsealedRow(c, call, m)], evidence := t.evidence)
  }

  /** cap_seal's own conditions, on whatever row the view holds. */
  predicate Sealable(c: Crypto, t: Tables, key: GrantKey, preimageHash: string, signature: string) {
    && key.0 != "" && key.1 != "" && signature != "" && key in t.grants
    && t.grants[key].status == "consumed" && t.grants[key].attestationRef.None?
    && t.grants[key].preimage.Some? && t.grants[key].preimage.value != ""
    && preimageHash == Sha256Pref(c, t.grants[key].preimage.value)
  }

  /** cap_persist_attestation's own conditions. */
  predicate Persistable(c: Crypto, t: Tables, key: GrantKey, token: string) {
    && key in t.grants && t.grants[key].status == "sealed" && t.grants[key].attestationRef.Some?
    && t.grants[key].preimage.Some?
    && PersistAccepts(c, t, key, t.grants[key].preimage.value, t.grants[key].attestationRef.value, token)
  }

  /** Seal and evidence write both go through. */
  predicate Completes(c: Crypto, t: Tables, call: Call, m: Mutation) {
    var p := GatePreimage(c, call, m);
    && SealAccepts(c, call, p, Sha256Pref(c, p), Signature(c, call, m))
    && PersistAccepts(c, t, KeyOf(call), p, Signature(c, call, m), Token(c, call, m))
  }

  /** Whoever presents a hash for sealing seals the row whose preimage has it, and no other bytes. */
  lemma SealBindsPreimage(c: Crypto, t: Tables, key: GrantKey, p: string, signature: string)
    requires IdealHash(c) && key in t.grants && t.grants[key].preimage.Some?
    ensures Sealable(c, t, key, Sha256Pref(c, p), signature) ==> t.grants[key].preimage == Some(p) && p != ""
    ensures Sealable(c, t, key, Sha256Pref(c, p), signature) ==>
              var t' := t.(grants := t.grants[key := t.grants[key].(status := "sealed", attestationRef := Some(signature))]);
              forall h, s :: !Sealable(c, t', key, h, s)
  {
    if Sealable(c, t, key, Sha256Pref(c, p), signature) { DigestInjective(c, p, t.grants[key].preimage.value); }
  }

  /**
   * A token that was stored carries its row's own preimage and signature: whatever key it later verifies
   * under, it verifies as that preimage, and no second token is ever stored for the row.
   */
  lemma StoredTokenCarriesRow(c: Crypto, t: Tables, key: GrantKey, token: string, k: Key, intended: Attestation.Intended)
    requires Ideal(c) && Persistable(c, t, key, token)
    ensures var v := Attestation.VerifyToken(c, token, Some(k), intended);
            v.Valid? ==> Some(v.preimage) == t.grants[key].preimage && Some(v.signature) == t.grants[key].attestationRef
    ensures var t' := t.(evidence := t.evidence + [Evidence(key.0, key.1, token)]);
            FirstToken(t'.evidence, key) == Some(token) && forall other :: !Persistable(c, t', key, other)
  {
    FirstTokenAppends(t.evidence, key, token);
  }

  /**
   * What is stored need not be readable: for every sealed row without evidence, the row's own artifact
   * with its kid left empty is stored, and no verifier accepts it.
   */
  lemma KidlessTokenIsStored(c: Crypto, t: Tables, key: GrantKey, k: Option<Key>, intended: Attestation.Intended)
    requires Ideal(c) && key in t.grants && t.grants[key].status == "sealed" && key.0 != "" && key.1 != ""
    requires t.grants[key].preimage.Some? && t.grants[key].preimage.value != ""
    requires t.grants[key].attestationRef.Some? && Segment(t.grants[key].attestationRef.value)
    requires FirstToken(t.evidence, key).None?
    ensures var token := Attestation.Encode(c, "", t.grants[key].preimage.value, t.grants[key].attestationRef.value);
            && Persistable(c, t, key, token)
            && Attestation.VerifyToken(c, token, k, intended) == Attestation.Invalid(Attestation.Malformed)
  {
    var p, signature := t.grants[key].preimage.value, t.grants[key].attestationRef.value;
    assert Segment(c.b64(p));
    SplitJoin([Attestation.ATOMIC_ATTEST_V, "", c.b64(p), signature], '|');
    assert Attestation.Encode(c, "", p, signature)[0] == 'c';
    assert [Attestation.ATOMIC_ATTEST_V, "", c.b64(p), signature][1] == "";
  }

  lemma {:induction false} FirstTokenAppends(evidence: seq<Evidence>, key: GrantKey, token: string)
    requires FirstToken(evidence, key).None?
    ensures FirstToken(evidence + [Evidence(key.0, key.1, token)], key) == Some(token)
  {
    var all := evidence + [Evidence(key.0, key.1, token)];
    if evidence != [] {
      FirstTokenAppends(evidence[1..], key, token);
      assert all[1..] == evidence[1..] + [Evidence(key.0, key.1, token)];
    }
  }

  class Database {
    const c: Crypto
    var tables: Tables
    var nextId: nat
    var now: int
    /** The open transaction's view. */
    var work: Tables
    ghost var state: State
    ghost var trace: seq<Action>

    ghost predicate Valid() reads this {
      Run(c, trace) == Some(state) && state.tables == tables && state.nextId == nextId && state.now == now
    }

    /** The call in slot i stands at pc and no other transaction is open. */
    ghost predicate Alone(i: nat, call: Call, pc: Pc) reads this {
      && i < |state.sessions| && state.sessions[i] == Session(call, pc)
      && forall j :: 0 <= j < |state.sessions| && j != i ==>
           var p := state.sessions[j].pc; p.Presented? || p.Begun? || p.Committed? || p.Done? || p.Crashed?
    }

    /** The tables are what one transaction of this call makes of `before`, where its grant had no row. */
    ghost predicate Published(before: Tables, call: Call, at: string) reads this {
      && KeyOf(call) !in before.grants
      && exists nonce, m :: BeforeBegin(c, call) == Go(Some(nonce)) && tables == Apply(c, before, call, nonce, m, at)
    }

    constructor (c: Crypto)
      ensures Valid() && this.c == c && trace == []
    {
      this.c := c;
      tables, nextId, now, state, trace := Init.tables, Init.nextId, Init.now, Init, [];
    }

    ghost method Advance(a: Action)
      requires Run(c, trace) == Some(state) && Enabled(c, state, a)
      requires var s := Next(c, state, a); s.tables == tables && s.nextId == nextId && s.now == now
      modifies this`state, this`trace
      ensures Valid() && state == Next(c, old(state), a) && trace == old(trace) + [a]
    {
      assert (trace + [a])[..|trace|] == trace;
      state, trace := Next(c, state, a), trace + [a];
    }

    /** Gate steps (1) and (2): the challenge under its lock, then the ledger row. */
    method Consume(ghost i: nat, call: Call, nonce: Option<string>) returns (refusal: Option<Refusal>)
      requires Valid() && Alone(i, call, Begun(nonce)) && work == tables
      modifies this`state, this`trace
      ensures Valid() && old(trace) <= trace
      ensures refusal.Some? ==> Alone(i, call, Done(Refused(refusal.value)))
      ensures refusal.None? ==> nonce.Some? && Alone(i, call, Claimed(nonce.value)) && KeyOf(call) !in work.grants
    {
      refusal := CheckState(c, work, call, nonce, now);
      Advance(Do(i, Lock));
      if refusal.None? {
        refusal := CheckClaim(work, call, nonce.value);
        Advance(Do(i, Claim));
      }
    }

    /** Gate step (3) on the articles of the view; the id sequence moves on whatever happens. */
    method WriteArticle(call: Call, at: string) returns (g: Gate)
      modifies this`work, this`nextId
      ensures g == GateWrite(old(nextId), old(work).articles, call)
      ensures nextId == if call.operation == "publish" then old(nextId) + 1 else old(nextId)
      ensures work == if g.GateOk? then old(work).(articles := Mutate(old(work).articles, g.mutation, at)) else old(work)
    {
      if call.operation == "publish" {
        var id := Decimal(nextId);
        nextId := nextId + 1;
        if id in work.articles { return GateNo(SealFailed); }
        work := work.(articles := work.articles[id := Article(call.title, call.body, at)]);
        g := GateOk(Inserted(id, call.title, call.body));
      } else if call.operation == "deploy" {
        g := GateOk(NoRow);
        if call.targetId in work.articles {
          var row := work.articles[call.targetId];
          g := GateOk(Deleted(call.targetId, row.title, row.body));
          work := work.(articles := work.articles - {call.targetId});
        }
      } else {
        g := GateNo(UnknownOperation);
      }
    }

    /** Gate step (3), then the spent challenge and the row's preimage, in the transaction's view. */
    method MutateTarget(ghost i: nat, call: Call, nonce: string, at: string) returns (g: Gate)
      requires Valid() && Alone(i, call, Claimed(nonce)) && work == tables
      modifies this`state, this`trace, this`work, this`nextId
      ensures Valid() && old(trace) <= trace
      ensures g.GateNo? ==> Alone(i, call, Done(Refused(g.why)))
      ensures g.GateOk? ==> Alone(i, call, Mutated(nonce, g.mutation)) && work == Gated(c, tables, call, nonce, g.mutation, at)
    {
      g := WriteArticle(call, at);
      Advance(Do(i, Write));
      if g.GateOk? {
        if nonce in work.challenges {
          work := work.(challenges := work.challenges[nonce := work.challenges[nonce].(consumed := true)]);
        }
        work := work.(grants := work.grants[KeyOf(call) := UnsealedRow(c, call, g.mutation)]);
      }
    }

    /** Seals the row the gate left unsigned; its preimage and every other row stay as they are. */
    method CapSeal(key: GrantKey, preimageHash: string, signature: string) returns (ok: bool)
      modifies this`work
      ensures ok <==> Sealable(c, old(work), key, preimageHash, signature)
      ensures work == if ok then old(work).(grants := old(work).grants[key :=
                        old(work).grants[key].(status := "sealed", attestationRef := Some(signature))]) else old(work)
    {
      ok := Sealable(c, work, key, preimageHash, signature);
      if ok {
        work := work.(grants := work.grants[key := work.grants[key].(status := "sealed", attestationRef := Some(signature))]);
      }
    }

    /** Stores the row's one token. */
    method CapPersistAttestation(key: GrantKey, token: string) returns (ok: bool)
      modifies this`work
      ensures ok <==> Persistable(c, old(work), key, token)
      ensures work == if ok then old(work).(evidence := old(work).evidence + [Evidence(key.0, key.1, token)]) else old(work)
    {
      ok := Persistable(c, work, key, token);
      if ok { work := work.(evidence := work.evidence + [Evidence(key.0, key.1, token)]); }
    }

    /** COMMIT: the deferred trigger re-reads the touched row and raises while it is missing or unsigned. */
    method Commit(key: GrantKey) returns (ok: bool)
      modifies this`tables
      ensures ok <==> key in work.grants && work.grants[key].status != "consumed"
      ensures tables == if ok then work else old(tables)
    {
      ok := key in work.grants && work.grants[key].status != "consumed";
      if ok { tables := work; }
    }

    /** cap_seal inside the open transaction: what the gate left unsigned becomes sealed. */
    method SealRow(ghost i: nat, call: Call, nonce: string, m: Mutation, at: string) returns (ok: bool)
      requires Valid() && Alone(i, call, Mutated(nonce, m)) && work == Gated(c, tables, call, nonce, m, at)
      modifies this`state, this`trace, this`work
      ensures Valid() && old(trace) <= trace
      ensures if ok then Alone(i, call, Sealed(nonce, m))
                         && work == Apply(c, tables, call, nonce, m, at).(evidence := tables.evidence)
              else Alone(i, call, Done(Refused(SealFailed)))
      ensures ok <==> SealAccepts(c, call, GatePreimage(c, call, m), Sha256Pref(c, GatePreimage(c, call, m)), Signature(c, call, m))
    {
      var preimage := GatePreimage(c, call, m);
      ok := CapSeal(KeyOf(call), Sha256Pref(c, preimage), c.sign(call.key, preimage));
      Advance(Do(i, Seal));
    }

    /** The evidence write inside the same transaction. */
    method PersistToken(ghost i: nat, call: Call, nonce: string, m: Mutation, at: string) returns (ok: bool)
      requires Valid() && Alone(i, call, Sealed(nonce, m))
      requires work == Apply(c, tables, call, nonce, m, at).(evidence := tables.evidence)
      modifies this`state, this`trace, this`work
      ensures Valid() && old(trace) <= trace
      ensures if ok then Alone(i, call, Persisted(nonce, m)) && work == Apply(c, tables, call, nonce, m, at)
              else Alone(i, call, Done(Refused(SealFailed)))
      ensures ok <==> PersistAccepts(c, tables, KeyOf(call), GatePreimage(c, call, m), Signature(c, call, m), Token(c, call, m))
    {
      ok := CapPersistAttestation(KeyOf(call), Token(c, call, m));
      Advance(Do(i, Persist));
    }

    /** COMMIT takes effect; with its acknowledgement lost the driver throws, and the call answers SEAL_FAILED. */
    method CommitAndReturn(ghost i: nat, call: Call, nonce: string, m: Mutation, at: string, ackLost: bool)
      returns (r: Result)
      requires Valid() && Alone(i, call, Persisted(nonce, m)) && work == Apply(c, tables, call, nonce, m, at)
      modifies this`state, this`trace, this`tables
      ensures Valid() && old(trace) <= trace && Alone(i, call, Done(r))
      ensures r == if ackLost then Refused(SealFailed) else Success(Token(c, call, m), GatePreimage(c, call, m))
      ensures tables == Apply(c, old(tables), call, nonce, m, at)
    {
      var ok := Commit(KeyOf(call));
      Advance(CommitTx(i, at, !ackLost));
      if ackLost { return Refused(SealFailed); }
      Advance(Do(i, Return));
      r := Success(Token(c, call, m), GatePreimage(c, call, m));
    }

    /**
     * From the gate's answer to the end of the transaction: everything is published if seal and evidence
     * write are accepted, and nothing otherwise; the caller hears of it unless the acknowledgement is lost.
     */
    method SealAndCommit(ghost i: nat, call: Call, nonce: string, m: Mutation, at: string, ackLost: bool)
      returns (r: Result)
      requires Valid() && Alone(i, call, Mutated(nonce, m)) && work == Gated(c, tables, call, nonce, m, at)
      modifies this
      ensures Valid() && old(trace) <= trace && Alone(i, call, Done(r))
      ensures tables == if Completes(c, old(tables), call, m) then Apply(c, old(tables), call, nonce, m, at) else old(tables)
      ensures r == if Completes(c, old(tables), call, m) && !ackLost
                   then Success(Token(c, call, m), GatePreimage(c, call, m)) else Refused(SealFailed)
    {
      var ok := SealRow(i, call, nonce, m, at);
      if !ok { return Refused(SealFailed); }
      ok := PersistToken(i, call, nonce, m, at);
      if !ok { return Refused(SealFailed); }
      r := CommitAndReturn(i, call, nonce, m, at, ackLost);
    }

    /** BEGIN, then the gate; a refusal or an exception rolls the view back. */
    method BeginAndGate(ghost i: nat, call: Call, at: string) returns (g: Gate, nonce: string)
      requires Valid() && Alone(i, call, Presented)
      modifies this`state, this`trace, this`work, this`nextId
      ensures Valid() && old(trace) <= trace
      ensures g.GateNo? ==> Alone(i, call, Done(Refused(g.why)))
      ensures g.GateOk? ==> Alone(i, call, Mutated(nonce, g.mutation)) && work == Gated(c, tables, call, nonce, g.mutation, at)
      ensures g.GateOk? ==> KeyOf(call) !in tables.grants && BeforeBegin(c, call) == Go(Some(nonce))
    {
      nonce := "";
      var start := BeforeBegin(c, call);
      Advance(Do(i, Begin));
      if start.Refuse? { return GateNo(start.why), ""; }
      work := tables;
      var refusal := Consume(i, call, start.nonce);
      if refusal.Some? { return GateNo(refusal.value), ""; }
      nonce := start.nonce.value;
      g := MutateTarget(i, call, nonce, at);
    }

    /**
     * One call against a database on which no other transaction is open. Either every table is as it was,
     * or the row, its evidence, the mutation and the spent challenge were published together for a grant
     * that had no row. A crash before the seal and every refusal but SEAL_FAILED mean the first, success
     * means the second; SEAL_FAILED means the second only if the acknowledgement of COMMIT was lost.
     */
    method AtomicExecute(ghost i: nat, call: Call, at: string, crashBeforeSeal: bool, ackLost: bool)
      returns (answer: Answer)
      requires Valid() && Alone(i, call, Presented)
      modifies this
      ensures Valid() && old(trace) <= trace
      ensures Alone(i, call, if answer.Threw? then Crashed else Done(answer.result))
      ensures answer.Threw? ==> crashBeforeSeal
      ensures tables == old(tables) || Published(old(tables), call, at)
      ensures tables != old(tables) ==>
                answer.Answered? && (answer.result.Success? || (answer.result == Refused(SealFailed) && ackLost))
      ensures answer.Answered? && answer.result.Success? ==>
                !ackLost && Published(old(tables), call, at) && exists m :: answer.result.token == Token(c, call, m)
    {
      var g, nonce := BeginAndGate(i, call, at);
      if g.GateNo? { return Answered(Refused(g.why)); }
      if crashBeforeSeal {
        Advance(Do(i, Crash));
        return Threw;
      }
      var r := SealAndCommit(i, call, nonce, g.mutation, at, ackLost);
      answer := Answered(r);
    }
  }
}
