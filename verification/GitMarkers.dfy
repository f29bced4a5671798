/** What the replay check and the reader see of the markers in a reflog: grant ids with their trailing blanks gone. */
module GitMarkers {
  import opened Text
  import opened Crypto
  import opened GitStore
  import opened GitProtocol
  import opened GitSafety
  import opened GitRecovery
  import opened GitReclaimBound
  import opened Clock
  import opened Reconcile

  /** No grant id ends in white space. */
  predicate Unpadded(s: State) {
    forall i :: 0 <= i < |s.execs| ==> TrimEnd(s.execs[i].call.jti) == s.execs[i].call.jti
  }

  /** Refs a recovery is asked about: named, and outside the consumed ledger. */
  predicate Inspectable(refs: seq<string>) {
    forall k :: 0 <= k < |refs| ==> refs[k] != "" && !InLedger(refs[k])
  }

  // ---------------------------------------------------------------- lines as moves

  lemma {:induction false} LineToMove(ref: string, lines: seq<string>, mv: RefMove)
    ensures mv in MovesOf(ref, lines) <==> mv.ref == ref && MarkerOf(mv.jti) in lines
  {
    if lines != [] {
      LineToMove(ref, lines[1..], mv);
      if StartsWith(lines[0], MARKER_PREFIX) {
        assert lines[0] == MARKER_PREFIX + lines[0][|MARKER_PREFIX|..];
      }
      assert MarkerOf(mv.jti)[|MARKER_PREFIX|..] == mv.jti;
    }
  }

  lemma {:induction false} LogToMove(repo: Repo, refs: seq<string>, mv: RefMove)
    ensures mv in MovesIn(repo, refs) <==> mv.ref in refs && MarkerOf(mv.jti) in ReflogMarkers(repo, mv.ref)
  {
    if refs != [] {
      LogToMove(repo, refs[1..], mv);
      LineToMove(refs[0], ReflogMarkers(repo, refs[0]), mv);
    }
  }

  // ---------------------------------------------------------------- trimming

  lemma {:induction false} TrimEndAppend(p: string, s: string)
    requires p != "" && !IsSpace(p[|p| - 1])
    ensures TrimEnd(p + s) == p + TrimEnd(s)
  {
    if s == "" {
      assert p + s == p;
    } else if IsSpace(s[|s| - 1]) {
      assert (p + s)[..|p + s| - 1] == p + s[..|s| - 1];
      TrimEndAppend(p, s[..|s| - 1]);
    }
  }

  lemma TrimmedMarker(jti: string)
    ensures Trim(MarkerOf(jti)) == MarkerOf(TrimEnd(jti))
  {
    TrimEndAppend(MARKER_PREFIX, jti);
  }

  lemma {:induction false} TrimEndHasNoEnd(s: string)
    ensures TrimEnd(s) != "" ==> !IsSpace(TrimEnd(s)[|TrimEnd(s)| - 1])
    ensures TrimEnd(TrimEnd(s)) == TrimEnd(s)
  {
    if s != "" && IsSpace(s[|s| - 1]) { TrimEndHasNoEnd(s[..|s| - 1]); }
  }

  /**
   * Why grant ids must not end in white space: the marker is compared with trimmed lines, so for such an
   * id the replay check finds no marker in any reflog; for every other id it finds its own.
   */
  lemma MarkerIsFoundIff(jti: string, log: seq<string>)
    requires MarkerOf(jti) in log
    ensures MarkerOf(jti) in ReadLines(log) <==> TrimEnd(jti) == jti
  {
    ReadLinesIn(log, MarkerOf(jti));
    TrimmedMarker(jti);
    if k :| 0 <= k < |log| && Trim(log[k]) == MarkerOf(jti) {
      TrimEndHasNoEnd(TrimStart(log[k]));
      MarkerInjective(TrimEnd(jti), jti);
    }
  }

  // ---------------------------------------------------------------- what a reflog tells

  /** Move k is recorded on this ref, and its id reads as j once its trailing blanks are gone. */
  predicate ReadsAs(cfg: Config, s: State, k: nat, ref: string, j: string)
    requires k < |s.moves|
  {
    s.moves[k].ref == ref && Recorded(cfg, s, k) && TrimEnd(s.moves[k].jti) == j
  }

  predicate ReadOn(cfg: Config, s: State, ref: string, j: string) {
    exists k :: 0 <= k < |s.moves| && ReadsAs(cfg, s, k, ref, j)
  }

  /** A line outside the ledger that reads as a marker is the marker of a move recorded there. */
  lemma LineIsRecorded(cfg: Config, s: State, ref: string, line: string, j: string) returns (k: nat)
    requires LogsOk(cfg, s) && !InLedger(ref) && line in Reflog(s.repo, ref) && Trim(line) == MarkerOf(j)
    ensures k < |s.moves| && ReadsAs(cfg, s, k, ref, j)
  {
    var c := cfg.host.crypto;
    TrimKeeps("push");
    assert MarkerOf(j)[0] == 'c' && "push"[0] == 'p';
    assert Explained(c, s.moves, ref, line);
    k :| 0 <= k < |s.moves| && line == MarkerOf(s.moves[k].jti)
         && (ref == s.moves[k].ref || ref == LedgerRefFor(c, s.moves[k].jti));
    LedgerRefInLedger(c, s.moves[k].jti);
    TrimmedMarker(s.moves[k].jti);
    MarkerInjective(TrimEnd(s.moves[k].jti), j);
    assert MarkedIffRecorded(cfg, s, k);
  }

  /**
   * WHAT A REFLOG TELLS. Over every run, a grant's marker is read on a ref outside the ledger exactly when a
   * move recorded there has that id once its trailing blanks are gone, whoever's id it is.
   */
  lemma MarkersTell(cfg: Config, s: State, ref: string, j: string)
    requires LogsOk(cfg, s) && !InLedger(ref)
    ensures MarkerOf(j) in ReflogMarkers(s.repo, ref) <==> ReadOn(cfg, s, ref, j)
  {
    var log := Reflog(s.repo, ref);
    ReadLinesIn(log, MarkerOf(j));
    if n :| 0 <= n < |log| && Trim(log[n]) == MarkerOf(j) {
      var k := LineIsRecorded(cfg, s, ref, log[n], j);
    }
    if k :| 0 <= k < |s.moves| && ReadsAs(cfg, s, k, ref, j) {
      assert MarkedIffRecorded(cfg, s, k);
      TrimmedMarker(s.moves[k].jti);
      var n :| 0 <= n < |log| && log[n] == MarkerOf(s.moves[k].jti);
      assert Trim(log[n]) == MarkerOf(j);
    }
  }

  /** A move of exactly this grant is recorded on this ref. */
  predicate LandedOn(cfg: Config, s: State, ref: string, j: string) {
    exists k :: 0 <= k < |s.moves| && s.moves[k].ref == ref && Recorded(cfg, s, k) && s.moves[k].jti == j
  }

  predicate UnpaddedOn(cfg: Config, s: State, ref: string) {
    forall k :: 0 <= k < |s.moves| && s.moves[k].ref == ref && Recorded(cfg, s, k) ==>
      TrimEnd(s.moves[k].jti) == s.moves[k].jti
  }

  /**
   * WHEN THE REPLAY CHECK IS EXACT. On a ref outside the ledger it refuses exactly the grants recorded there
   * if and only if no id recorded there ends in white space.
   */
  lemma ReplayCheckIsExactIff(cfg: Config, s: State, ref: string)
    requires LogsOk(cfg, s) && !InLedger(ref)
    ensures (forall j :: MarkerOf(j) in ReflogMarkers(s.repo, ref) <==> LandedOn(cfg, s, ref, j))
       <==> UnpaddedOn(cfg, s, ref)
  {
    if UnpaddedOn(cfg, s, ref) {
      forall j ensures MarkerOf(j) in ReflogMarkers(s.repo, ref) <==> LandedOn(cfg, s, ref, j) {
        MarkersTell(cfg, s, ref, j);
        UnpaddedReads(cfg, s, ref, j);
      }
    } else {
      var k :| 0 <= k < |s.moves| && s.moves[k].ref == ref && Recorded(cfg, s, k)
               && TrimEnd(s.moves[k].jti) != s.moves[k].jti;
      var j := s.moves[k].jti;
      MarkersTell(cfg, s, ref, j);
      assert LandedOn(cfg, s, ref, j);
      if n :| 0 <= n < |s.moves| && ReadsAs(cfg, s, n, ref, j) { TrimEndHasNoEnd(s.moves[n].jti); }
    }
  }

  lemma UnpaddedReads(cfg: Config, s: State, ref: string, j: string)
    requires UnpaddedOn(cfg, s, ref)
    ensures ReadOn(cfg, s, ref, j) <==> LandedOn(cfg, s, ref, j)
  {
    if k :| 0 <= k < |s.moves| && ReadsAs(cfg, s, k, ref, j) { assert s.moves[k].jti == j; }
    if k :| 0 <= k < |s.moves| && s.moves[k].ref == ref && Recorded(cfg, s, k) && s.moves[k].jti == j {
      assert ReadsAs(cfg, s, k, ref, j);
    }
  }

  lemma MoverFacts(s: State, k: nat)
    requires k < |s.moves| && MoveOk(s, s.moves[k]) && Unpadded(s)
    ensures TrimEnd(s.moves[k].jti) == s.moves[k].jti
  {
  }

  /** The landed move behind a reported one. */
  lemma LandedBehind(cfg: Config, s: State, refs: seq<string>, mv: RefMove) returns (k: nat)
    requires Safe(cfg, s) && LogsOk(cfg, s) && Unpadded(s) && Inspectable(refs)
    requires mv in MovesIn(s.repo, refs)
    ensures k < |s.moves| && s.moves[k].jti == mv.jti && s.moves[k].ref == mv.ref && mv.ref in refs && Recorded(cfg, s, k)
  {
    LogToMove(s.repo, refs, mv);
    MarkersTell(cfg, s, mv.ref, mv.jti);
    k :| 0 <= k < |s.moves| && ReadsAs(cfg, s, k, mv.ref, mv.jti);
    MoverFacts(s, k);
  }

  /** A landed move on an inspected ref is reported if and only if it is recorded. */
  lemma ReportedIffRecorded(cfg: Config, s: State, refs: seq<string>, k: nat)
    requires Safe(cfg, s) && LogsOk(cfg, s) && Unpadded(s) && Inspectable(refs) && k < |s.moves|
    ensures (exists mv :: mv in MovesIn(s.repo, refs) && mv.jti == s.moves[k].jti)
       <==> Recorded(cfg, s, k) && s.moves[k].ref in refs
    ensures Recorded(cfg, s, k) && s.moves[k].ref in refs ==>
              RefMove(s.moves[k].ref, s.moves[k].jti) in MovesIn(s.repo, refs)
  {
    var m := s.moves[k];
    MoverFacts(s, k);
    LogToMove(s.repo, refs, RefMove(m.ref, m.jti));
    if Recorded(cfg, s, k) && m.ref in refs {
      MarkersTell(cfg, s, m.ref, m.jti);
      assert ReadsAs(cfg, s, k, m.ref, m.jti);
    }
    if mv :| mv in MovesIn(s.repo, refs) && mv.jti == m.jti {
      var n := LandedBehind(cfg, s, refs, mv);
      assert n == k;
    }
  }

  // ---------------------------------------------------------------- a grant that never landed

  /**
   * A grant whose id ends in a blank lands. The grant with the same id but for that blank, which never
   * landed anywhere, is then refused on that ref as consumed, and reported as a move there.
   */
  lemma BlankTwinIsRefused(cfg: Config, g: string, oid: string) returns (acts: seq<Action>, s: State)
    requires HasGrant(cfg, g + " ", oid) && g != "" && TrimEnd(g) == g && cfg.host.logged(REF_A)
    requires cfg.exp(g) >= cfg.exp(g + " ")
    ensures Reaches(cfg, acts, s, true) && s.moves == [Move(0, g + " ", REF_A, "absent:", oid)]
    ensures |s.execs| == 3 && s.execs[2].call == Example(g, REF_A, oid, oid)
    ensures s.execs[2].pc == Done(Refused(GrantAlreadyConsumed))
    ensures RefMove(REF_A, g) in MovesIn(s.repo, [REF_A])
    ensures s.repo.refs == map[LedgerRefFor(cfg.host.crypto, g + " ") := oid, REF_A := oid]
  {
    var s0;
    acts, s0 := FirstLands(cfg, g + " ", oid);
    TwinMarker(s0.repo, g);
    TwinIsPlain(g, oid);
    acts, s := RefusedAsConsumed(cfg, acts, s0, Example(g, REF_A, oid, oid));
  }

  lemma TwinIsPlain(g: string, oid: string)
    requires g != "" && '|' !in g + " " && IsSha(oid)
    ensures Precheck(Example(g, REF_A, oid, oid)).None?
  {
    assert g == (g + " ")[..|g|];
    ExampleIsPlain(g, REF_A, oid, oid);
  }

  lemma TwinMarker(repo: Repo, g: string)
    requires Reflog(repo, REF_A) == [MarkerOf(g + " ")] && TrimEnd(g) == g
    ensures MarkerOf(g) in ReflogMarkers(repo, REF_A) && RefMove(REF_A, g) in MovesIn(repo, [REF_A])
  {
    TrimmedMarker(g + " ");
    assert (g + " ")[..|g|] == g;
    ReadLinesIn(Reflog(repo, REF_A), MarkerOf(g));
    LogToMove(repo, [REF_A], RefMove(REF_A, g));
  }

  /** A call whose marker reads in its ref's reflog is refused before it does anything. */
  lemma RefusedAsConsumed(cfg: Config, acts: seq<Action>, s: State, call: Call) returns (acts': seq<Action>, s': State)
    requires Reaches(cfg, acts, s, true) && Governed(call) && Precheck(call).None?
    requires !IsExpiredAt(cfg.exp(call.jti), s.now - cfg.lag) && MarkerOf(call.jti) in ReflogMarkers(s.repo, call.ref)
    ensures Reaches(cfg, acts', s', true)
    ensures s' == s.(execs := s.execs + [Exec(call, Done(Refused(GrantAlreadyConsumed)), 0)])
  {
    acts' := Extend(cfg, acts, s, true, Spawn(call));
    var s1 := Next(cfg, s, Spawn(call));
    acts' := ReplayFound(cfg, acts', s1, |s.execs|);
    s' := Goto(s1, |s.execs|, Done(Refused(GrantAlreadyConsumed)));
  }

  lemma ReplayFound(cfg: Config, acts: seq<Action>, s: State, e: nat) returns (acts': seq<Action>)
    requires Reaches(cfg, acts, s, true) && e < |s.execs| && s.execs[e].pc.Presented? && Precheck(s.execs[e].call).None?
    requires !IsExpiredAt(cfg.exp(s.execs[e].call.jti), s.now - cfg.lag)
    requires MarkerOf(s.execs[e].call.jti) in ReflogMarkers(s.repo, s.execs[e].call.ref)
    ensures Reaches(cfg, acts', Goto(s, e, Done(Refused(GrantAlreadyConsumed))), true)
  {
    acts' := Extend(cfg, acts, s, true, Verify(e, cfg.lag));
    var s1 := Next(cfg, s, Verify(e, cfg.lag));
    acts' := Extend(cfg, acts', s1, true, Check(e));
    var s2 := Next(cfg, s1, Check(e));
    acts' := Extend(cfg, acts', s2, true, ReadReflog(e, true));
    assert Next(cfg, s2, ReadReflog(e, true)).execs == Goto(s, e, Done(Refused(GrantAlreadyConsumed))).execs;
  }
}
