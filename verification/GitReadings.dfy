/** What reconcileGit says when some of its own git processes fail. */
module GitReadings {
  import opened Text
  import opened Crypto
  import opened GitProtocol
  import opened GitMarkers
  import opened GitRecovery
  import opened GitRecoveryExact
  import opened Reconcile

  /** Some reflog read of this ref was answered. */
  predicate WasRead(refs: seq<string>, heard: set<nat>, ref: string) {
    exists i :: 0 <= i < |refs| && i in heard && refs[i] == ref
  }

  lemma {:induction false} AnsweredIn(refs: seq<string>, heard: set<nat>, ref: string)
    ensures ref in AnsweredRefs(refs, heard) <==> WasRead(refs, heard, ref)
  {
    if refs != [] {
      var n := |refs| - 1;
      AnsweredIn(refs[..n], heard, ref);
      if i :| 0 <= i < |refs[..n]| && i in heard && refs[..n][i] == ref { assert refs[i] == ref; }
      if i :| 0 <= i < |refs| && i in heard && refs[i] == ref && i < n { assert refs[..n][i] == ref; }
    }
  }

  /**
   * NO LEDGER, NO VERDICT. When the ledger cannot be listed, every reported move is INDETERMINATE for want
   * of a claim, whatever evidence there is, and nothing is RELEASED.
   */
  lemma UnreadLedgerDecidesNothing(c: Crypto, moves: seq<RefMove>, atts: Attestations, t: Trust)
    ensures var entries := GitEntries(c, LedgerReportOf(c, [], moves, atts), atts, t);
            && |entries| == |moves|
            && forall n :: 0 <= n < |moves| ==>
                 entries[n] == Entry(Git, Some(moves[n].jti), Indeterminate, moves[n].ref, Some(LedgerClaimAbsent), None)
  {
    var r := LedgerReportOf(c, [], moves, atts);
    assert r.moves == moves && r.ledgerWithoutMove == [];
    forall n | 0 <= n < |moves|
      ensures GitEntryOf(c, moves[n], r, atts, t)
           == Entry(Git, Some(moves[n].jti), Indeterminate, moves[n].ref, Some(LedgerClaimAbsent), None)
    {
      MissingIffUnlisted(c, [], moves, atts, moves[n]);
    }
  }

  /** What the theorems ask of the refs a reader is given holds of those it could read. */
  lemma AnsweredReached(cfg: Config, acts: seq<Action>, s: State, refs: seq<string>, heard: set<nat>, ledger: seq<LedgerEntry>)
    requires Reached(cfg, acts, s, refs, ledger)
    ensures Reached(cfg, acts, s, AnsweredRefs(refs, heard), ledger)
  {
    var answered := AnsweredRefs(refs, heard);
    forall k | 0 <= k < |answered| ensures answered[k] in refs {
      assert answered[k] in answered;
      AnsweredIn(refs, heard, answered[k]);
    }
  }

  /**
   * AN UNREAD REFLOG RELEASES. Over every run, with the ledger listed, a landed move is reported as a move if
   * and only if it is recorded on a ref whose reflog was read; otherwise, and only then, its standing claim
   * is reported RELEASED. So a reflog read that fails turns recorded moves into RELEASED claims.
   */
  lemma UnreadReflogReleases(cfg: Config, acts: seq<Action>, s: State, t: Trust, refs: seq<string>, heard: set<nat>,
                             atts: Attestations, ledger: seq<LedgerEntry>, k: nat)
    requires Reached(cfg, acts, s, refs, ledger) && k < |s.moves|
    ensures var m := s.moves[k];
            var entries := EntriesOf(cfg, s, AnsweredRefs(refs, heard), ledger, atts, t);
            && ((exists e :: e in entries && e.jti == Some(m.jti)) <==> Recorded(cfg, s, k) && WasRead(refs, heard, m.ref))
            && (m.jti !in s.reclaimed ==>
                  (ReleasedClaim(cfg.host.crypto, m.jti) in entries <==>
                     !(Recorded(cfg, s, k) && WasRead(refs, heard, m.ref))))
  {
    AnsweredReached(cfg, acts, s, refs, heard, ledger);
    AnsweredIn(refs, heard, s.moves[k].ref);
    RecoveryIsComplete(cfg, acts, s, t, AnsweredRefs(refs, heard), atts, ledger, k);
  }
}
