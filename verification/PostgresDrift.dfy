/**
 * What a deploy really deletes. The gate compares the article with its challenge but does not lock it, so
 * every run carries, for each call, what its check saw and what was written to that row before its own
 * write.
 */
module PostgresDrift {
  import opened Text
  import opened Crypto
  import opened PgTables
  import opened Postgres
  import opened PostgresSafety

  /** What deleting this row amounts to. */
  function Removal(target: string, row: Option<Article>): Mutation {
    match row
    case Some(a) => Deleted(target, a.title, a.body)
    case None => NoRow
  }

  /** The challenge this nonce names is the one the row as checked satisfies. */
  predicate CheckedOk(c: Crypto, t: Tables, call: Call, nonce: string, w: Watch) {
    && nonce in t.challenges && t.challenges[nonce].targetId == call.targetId
    && t.challenges[nonce].digest == DigestOf(c, call.targetId, w.checked)
  }

  predicate DeployOk(call: Call, m: Mutation, w: Watch) {
    call.operation == "deploy" ==> m == Removal(call.targetId, Found(w))
  }

  predicate WatchOk(c: Crypto, s: State, i: nat)
    requires i < |s.sessions|
  {
    var x := s.sessions[i];
    && (InLock(x.pc) ==> i in s.watches && CheckedOk(c, s.tables, x.call, x.pc.nonce, s.watches[i]))
    && (Waiting(s, i) ==> ArticleAt(s.tables, x.call.targetId) == Found(WatchOf(s, i)))
    && (x.pc.Mutated? || x.pc.Sealed? || x.pc.Persisted? ==> DeployOk(x.call, x.pc.mutation, WatchOf(s, i)))
  }

  /** The same of a transaction that committed. */
  predicate CommitWatchOk(c: Crypto, s: State, x: Commit) {
    && x.session < |s.sessions|
    && CheckedOk(c, s.tables, s.sessions[x.session].call, x.nonce, x.watch)
    && DeployOk(s.sessions[x.session].call, x.mutation, x.watch)
  }

  predicate Watched(c: Crypto, s: State) {
    && (forall i :: 0 <= i < |s.sessions| ==> WatchOk(c, s, i))
    && (forall k :: 0 <= k < |s.commits| ==> CommitWatchOk(c, s, s.commits[k]))
  }

  // ---------------------------------------------------------------- one step

  /** What a challenge was issued for never changes. */
  lemma ChallengesKeep(c: Crypto, s: State, a: Action, call: Call, nonce: string, w: Watch)
    requires Enabled(c, s, a) && CheckedOk(c, s.tables, call, nonce, w)
    ensures CheckedOk(c, Next(c, s, a).tables, call, nonce, w)
  {
  }

  /** A step that does not touch a row leaves it as it is. */
  lemma UntouchedKeeps(c: Crypto, s: State, a: Action, target: string)
    requires Enabled(c, s, a) && Touched(s, a) != Some(target)
    ensures ArticleAt(Next(c, s, a).tables, target) == ArticleAt(s.tables, target)
  {
  }

  /** The call that makes the step. */
  lemma ActorIsWatched(c: Crypto, s: State, i: nat, kind: Kind)
    requires i < |s.sessions| && WatchOk(c, s, i) && Ready(s, i, kind)
    ensures WatchOk(c, Next(c, s, Do(i, kind)), i)
  {
  }

  /** Every other call: it stays where it is, and sees its row touched if it is. */
  lemma OtherIsWatched(c: Crypto, s: State, a: Action, i: nat)
    requires Enabled(c, s, a) && i < |s.sessions| && WatchOk(c, s, i)
    requires Next(c, s, a).sessions[i] == s.sessions[i] && (a.Do? ==> a.i != i)
    ensures WatchOk(c, Next(c, s, a), i)
  {
    var s', x := Next(c, s, a), s.sessions[i];
    if InLock(x.pc) {
      assert i in s'.watches && s'.watches[i].checked == s.watches[i].checked;
      ChallengesKeep(c, s, a, x.call, x.pc.nonce, s'.watches[i]);
      if Touched(s, a) != Some(x.call.targetId) { UntouchedKeeps(c, s, a, x.call.targetId); }
    }
  }

  lemma CommitIsWatched(c: Crypto, s: State, a: Action, k: nat)
    requires Watched(c, s) && Enabled(c, s, a) && k < |Next(c, s, a).commits|
    ensures CommitWatchOk(c, Next(c, s, a), Next(c, s, a).commits[k])
  {
    var s' := Next(c, s, a);
    if k < |s.commits| {
      var x := s.commits[k];
      assert CommitWatchOk(c, s, x);
      ChallengesKeep(c, s, a, s.sessions[x.session].call, x.nonce, x.watch);
    } else {
      assert WatchOk(c, s, a.i);
      ChallengesKeep(c, s, a, s.sessions[a.i].call, s.sessions[a.i].pc.nonce, WatchOf(s, a.i));
    }
  }

  lemma StepIsWatched(c: Crypto, s: State, a: Action)
    requires Watched(c, s) && Enabled(c, s, a)
    ensures Watched(c, Next(c, s, a))
  {
    var s' := Next(c, s, a);
    forall i | 0 <= i < |s'.sessions| ensures WatchOk(c, s', i) {
      if i < |s.sessions| {
        assert WatchOk(c, s, i);
        if a.Do? && a.i == i {
          ActorIsWatched(c, s, i, a.kind);
        } else if !(a.CommitTx? && a.i == i) {
          OtherIsWatched(c, s, a, i);
        }
      }
    }
    forall k | 0 <= k < |s'.commits| ensures CommitWatchOk(c, s', s'.commits[k]) { CommitIsWatched(c, s, a, k); }
  }

  lemma {:induction false} WatchedRun(c: Crypto, acts: seq<Action>)
    requires Run(c, acts).Some?
    ensures Watched(c, Run(c, acts).value)
    decreases |acts|
  {
    if acts != [] {
      WatchedRun(c, acts[..|acts| - 1]);
      StepIsWatched(c, Run(c, acts[..|acts| - 1]).value, acts[|acts| - 1]);
    }
  }

  // ---------------------------------------------------------------- the theorem

  /**
   * WHAT A COMMITTED DEPLOY REMOVED. Over every run, the row a committed deploy was checked against has
   * the digest its challenge was issued for, and what the deploy removed is the row as the last writer
   * between check and write left it. So it removed the challenged content if and only if nothing was
   * written to that row in between, or the last write left the same content there; and its mutation is
   * empty exactly when there was no row any more.
   */
  lemma DeployRemovesChallengedIff(c: Crypto, acts: seq<Action>, s: State, k: nat)
    requires Run(c, acts) == Some(s) && k < |s.commits|
    ensures s.commits[k].session < |s.sessions|
    ensures var x := s.commits[k];
            var call := s.sessions[x.session].call;
            && x.nonce in s.tables.challenges
            && s.tables.challenges[x.nonce].digest == DigestOf(c, call.targetId, x.watch.checked)
    ensures var x := s.commits[k];
            var call := s.sessions[x.session].call;
            call.operation == "deploy" ==>
              && x.mutation == Removal(call.targetId, Found(x.watch))
              && (x.mutation.NoRow? <==> Found(x.watch).None?)
              && (x.mutation == Removal(call.targetId, x.watch.checked) <==>
                  x.watch.between.None? || SameContent(x.watch.between.value, x.watch.checked))
  {
    WatchedRun(c, acts);
    assert CommitWatchOk(c, s, s.commits[k]);
  }

  /** No row either time, or the same title and body. */
  predicate SameContent(a: Option<Article>, b: Option<Article>) {
    if a.Some? && b.Some? then a.value.title == b.value.title && a.value.body == b.value.body else a == b
  }
}
