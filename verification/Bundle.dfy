/** Evidence bundles: what the assembler emits, and what the verifier says of it. */
module Bundle {
  import opened Text

  const BUNDLE_V := "cr.bundle.v1"

  // ---------------------------------------------------------------- the assembler

  /** A row of the assembler's slot table. */
  datatype SlotDef = SlotDef(key: string, verifiable: bool, hasProducer: bool)

  const ASSEMBLER_SLOTS: seq<SlotDef> := [
    SlotDef("receipt", true, false),
    SlotDef("execution_grant", true, true),
    SlotDef("toolset_declaration", true, false),
    SlotDef("commit_attestation", true, false),
    SlotDef("nonce_commitment", false, false),
    SlotDef("merge_evidence", true, true),
    SlotDef("deploy_attestation", true, true),
    SlotDef("provider_evidence", false, true)]

  datatype AbsentClass = NotSupplied | NoProducer | RefusedNoVerifier

  datatype Absent = Absent(slot: string, class_: AbsentClass)

  /** slots maps placed keys to tokens; v is the version written. */
  datatype Bundle = Bundle(v: string, slots: map<string, string>, assembled: seq<string>, absent: seq<Absent>, refused: seq<string>)

  datatype Assembly = UnknownKeys | NothingPlaced | Assembled(bundle: Bundle)

  predicate Supplied(tokens: map<string, string>, key: string) { key in tokens && tokens[key] != "" }

  predicate Placed(tokens: map<string, string>, d: SlotDef) { Supplied(tokens, d.key) && d.verifiable }

  function AbsentOf(tokens: map<string, string>, d: SlotDef): seq<Absent> {
    if Placed(tokens, d) then []
    else if Supplied(tokens, d.key) then [Absent(d.key, RefusedNoVerifier)]
    else [Absent(d.key, if d.hasProducer then NotSupplied else NoProducer)]
  }

  function AbsentIn(tokens: map<string, string>, defs: seq<SlotDef>): seq<Absent> {
    if defs == [] then [] else AbsentIn(tokens, defs[..|defs| - 1]) + AbsentOf(tokens, defs[|defs| - 1])
  }

  function PlacedIn(tokens: map<string, string>, defs: seq<SlotDef>): seq<string> {
    if defs == [] then []
    else
      var d := defs[|defs| - 1];
      PlacedIn(tokens, defs[..|defs| - 1]) + (if Placed(tokens, d) then [d.key] else [])
  }

  predicate Known(tokens: map<string, string>) {
    forall k :: k in tokens ==> exists i :: 0 <= i < |ASSEMBLER_SLOTS| && ASSEMBLER_SLOTS[i].key == k
  }

  /** The bundle holds exactly the supplied tokens of verifiable slots. */
  predicate Holds(b: Bundle, tokens: map<string, string>, defs: seq<SlotDef>) {
    && b.assembled == PlacedIn(tokens, defs) && b.absent == AbsentIn(tokens, defs)
    && (forall i :: 0 <= i < |defs| ==> (defs[i].key in b.slots <==> Placed(tokens, defs[i])))
    && (forall k :: k in b.slots ==> Supplied(tokens, k) && b.slots[k] == tokens[k]
                                     && exists i :: 0 <= i < |defs| && defs[i].key == k)
  }

  predicate DistinctDefs(defs: seq<SlotDef>) {
    forall i, j :: 0 <= i < j < |defs| ==> defs[i].key != defs[j].key
  }

  method AssembleBundle(tokens: map<string, string>, allowEmpty: bool) returns (r: Assembly)
    ensures r.UnknownKeys? <==> !Known(tokens)
    ensures Known(tokens) && !allowEmpty ==> (r.NothingPlaced? <==> PlacedIn(tokens, ASSEMBLER_SLOTS) == [])
    ensures Known(tokens) && allowEmpty ==> r.Assembled?
    ensures r.Assembled? ==> r.bundle.v == BUNDLE_V && Holds(r.bundle, tokens, ASSEMBLER_SLOTS)
  {
    if exists k :: k in tokens && !exists i :: 0 <= i < |ASSEMBLER_SLOTS| && ASSEMBLER_SLOTS[i].key == k {
      return UnknownKeys;
    }
    SlotTablesAgree();
    var b := FillSlots(tokens, ASSEMBLER_SLOTS);
    if b.assembled == [] && !allowEmpty { return NothingPlaced; }
    r := Assembled(b);
  }

  /** The assembly loop over a slot table. */
  method FillSlots(tokens: map<string, string>, defs: seq<SlotDef>) returns (b: Bundle)
    requires DistinctDefs(defs)
    ensures b.v == BUNDLE_V && Holds(b, tokens, defs)
  {
    b := Bundle(BUNDLE_V, map[], [], [], []);
    for i := 0 to |defs|
      invariant b.v == BUNDLE_V && Holds(b, tokens, defs[..i])
    {
      var d := defs[i];
      assert defs[..i + 1][..i] == defs[..i] && defs[..i + 1][i] == d;
      ghost var was := b;
      if !Supplied(tokens, d.key) {
        b := b.(absent := b.absent + [Absent(d.key, if d.hasProducer then NotSupplied else NoProducer)]);
      } else if !d.verifiable {
        b := b.(absent := b.absent + [Absent(d.key, RefusedNoVerifier)], refused := b.refused + [d.key]);
      } else {
        b := b.(slots := b.slots[d.key := tokens[d.key]], assembled := b.assembled + [d.key]);
      }
      HoldsNext(was, b, tokens, defs, i);
    }
    assert defs[..|defs|] == defs;
  }

  lemma HoldsNext(was: Bundle, b: Bundle, tokens: map<string, string>, defs: seq<SlotDef>, i: nat)
    requires DistinctDefs(defs) && i < |defs| && Holds(was, tokens, defs[..i])
    requires b.absent == was.absent + AbsentOf(tokens, defs[i])
    requires b.assembled == was.assembled + (if Placed(tokens, defs[i]) then [defs[i].key] else [])
    requires b.slots == if Placed(tokens, defs[i]) then was.slots[defs[i].key := tokens[defs[i].key]] else was.slots
    ensures Holds(b, tokens, defs[..i + 1])
  {
    var more := defs[..i + 1];
    assert more[..i] == defs[..i] && more[i] == defs[i];
    assert forall k :: 0 <= k < i ==> defs[..i][k] == defs[k] && defs[k].key != defs[i].key;
    forall j | 0 <= j < i + 1 ensures more[j].key in b.slots <==> Placed(tokens, more[j]) {
      if j < i { assert defs[..i][j] == defs[j] && defs[j].key != defs[i].key; }
    }
    forall k | k in b.slots ensures exists j :: 0 <= j < i + 1 && more[j].key == k {
      if k == defs[i].key {
        assert more[i].key == k;
      } else {
        var j :| 0 <= j < i && defs[..i][j].key == k;
        assert more[j].key == k;
      }
    }
  }

  // ---------------------------------------------------------------- the verifier

  /** A row of the verifier's slot table. */
  datatype VerifierDef = VerifierDef(key: string, hasVerifier: bool)

  const VERIFIER_SLOTS: seq<VerifierDef> := [
    VerifierDef("receipt", true),
    VerifierDef("execution_grant", true),
    VerifierDef("toolset_declaration", true),
    VerifierDef("commit_attestation", true),
    VerifierDef("nonce_commitment", false),
    VerifierDef("merge_evidence", true),
    VerifierDef("deploy_attestation", true),
    VerifierDef("provider_evidence", false)]

  datatype SlotState = Verified | Invalid | SlotAbsent

  datatype SlotResult = SlotResult(slot: string, state: SlotState, noVerifier: bool)

  datatype Verdict = VerdictVerified | VerdictInvalid | VerdictEmpty

  /**
   * The slot verifiers (an exception counts as not valid) and the linkage test: whether a grant token
   * names the digest of a receipt token.
   */
  datatype Checks = Checks(valid: (string, string) -> bool, binds: (string, string) -> bool)

  datatype Report = Report(verdict: Verdict, verified: nat, invalid: nat, absent: nat, slots: seq<SlotResult>, linkage: Option<bool>)

  datatype Graded = UnsupportedVersion | UnknownSlot | Result(report: Report) | GuardThrew

  function ResultOf(checks: Checks, given: map<string, string>, d: VerifierDef): SlotResult {
    if !Supplied(given, d.key) then SlotResult(d.key, SlotAbsent, false)
    else if !d.hasVerifier then SlotResult(d.key, Invalid, true)
    else SlotResult(d.key, if checks.valid(d.key, given[d.key]) then Verified else Invalid, false)
  }

  function Count(slots: seq<SlotResult>, state: SlotState): nat {
    if slots == [] then 0
    else Count(slots[..|slots| - 1], state) + (if slots[|slots| - 1].state == state then 1 else 0)
  }

  predicate VerifiedSlot(checks: Checks, given: map<string, string>, key: string) {
    Supplied(given, key) && checks.valid(key, given[key])
  }

  /** Evaluated only when both the receipt and the grant verified. */
  function LinkageOf(checks: Checks, given: map<string, string>): Option<bool> {
    if VerifiedSlot(checks, given, "receipt") && VerifiedSlot(checks, given, "execution_grant")
    then Some(checks.binds(given["execution_grant"], given["receipt"])) else None
  }

  function VerdictOf(verified: nat, invalid: nat, linkage: Option<bool>): Verdict {
    if verified == 0 then VerdictEmpty
    else if invalid > 0 || linkage == Some(false) then VerdictInvalid
    else VerdictVerified
  }

  /** assertNoGreenEmpty's two conditions. */
  predicate GreenEmpty(r: Report) {
    (r.verified + r.invalid == 0 && r.verdict != VerdictEmpty) || (r.verdict == VerdictVerified && r.verified == 0)
  }

  function ResultsOf(checks: Checks, given: map<string, string>): (rs: seq<SlotResult>)
    ensures |rs| == |VERIFIER_SLOTS| && forall i :: 0 <= i < |rs| ==> rs[i] == ResultOf(checks, given, VERIFIER_SLOTS[i])
  {
    seq(|VERIFIER_SLOTS|, i requires 0 <= i < |VERIFIER_SLOTS| => ResultOf(checks, given, VERIFIER_SLOTS[i]))
  }

  function ReportOf(checks: Checks, given: map<string, string>): Report {
    var rs := ResultsOf(checks, given);
    var v, i, a := Count(rs, Verified), Count(rs, Invalid), Count(rs, SlotAbsent);
    Report(VerdictOf(v, i, LinkageOf(checks, given)), v, i, a, rs, LinkageOf(checks, given))
  }

  predicate KnownSlots(given: map<string, string>) {
    forall k :: k in given ==> exists i :: 0 <= i < |VERIFIER_SLOTS| && VERIFIER_SLOTS[i].key == k
  }

  lemma CountOneMore(slots: seq<SlotResult>, r: SlotResult)
    ensures forall state :: Count(slots + [r], state) == Count(slots, state) + (if r.state == state then 1 else 0)
  {
    assert (slots + [r])[..|slots|] == slots;
  }

  method GradeSlots(checks: Checks, given: map<string, string>) returns (slots: seq<SlotResult>, v: nat, x: nat, a: nat)
    ensures slots == ResultsOf(checks, given)
    ensures v == Count(slots, Verified) && x == Count(slots, Invalid) && a == Count(slots, SlotAbsent)
  {
    slots, v, x, a := [], 0, 0, 0;
    for i := 0 to |VERIFIER_SLOTS|
      invariant |slots| == i && forall k :: 0 <= k < i ==> slots[k] == ResultOf(checks, given, VERIFIER_SLOTS[k])
      invariant v == Count(slots, Verified) && x == Count(slots, Invalid) && a == Count(slots, SlotAbsent)
    {
      var r := ResultOf(checks, given, VERIFIER_SLOTS[i]);
      CountOneMore(slots, r);
      slots := slots + [r];
      match r.state
      case Verified => v := v + 1;
      case Invalid => x := x + 1;
      case SlotAbsent => a := a + 1;
    }
    assert slots == ResultsOf(checks, given);
  }

  method VerifyBundle(checks: Checks, version: string, given: map<string, string>) returns (g: Graded)
    ensures if version != BUNDLE_V then g == UnsupportedVersion
            else if !KnownSlots(given) then g == UnknownSlot
            else g == Result(ReportOf(checks, given))
  {
    if version != BUNDLE_V { return UnsupportedVersion; }
    if exists k :: k in given && !exists i :: 0 <= i < |VERIFIER_SLOTS| && VERIFIER_SLOTS[i].key == k { return UnknownSlot; }
    var slots, v, x, a := GradeSlots(checks, given);
    var linkage := LinkageOf(checks, given);
    var report := Report(VerdictOf(v, x, linkage), v, x, a, slots, linkage);
    NeverGreenEmpty(checks, given);
    if GreenEmpty(report) { return GuardThrew; }
    g := Result(report);
  }

  // ---------------------------------------------------------------- the two agree

  lemma SlotKeysDistinct()
    ensures DistinctDefs(ASSEMBLER_SLOTS)
  {
    var a := ASSEMBLER_SLOTS;
    assert a[0].key[0] == 'r' && a[1].key[0] == 'e' && a[2].key[0] == 't' && a[3].key[0] == 'c';
    assert a[4].key[0] == 'n' && a[5].key[0] == 'm' && a[6].key[0] == 'd' && a[7].key[0] == 'p';
  }

  lemma SlotTablesAgree()
    ensures DistinctDefs(ASSEMBLER_SLOTS) && |ASSEMBLER_SLOTS| == |VERIFIER_SLOTS|
    ensures forall i :: 0 <= i < |VERIFIER_SLOTS| ==>
              ASSEMBLER_SLOTS[i].key == VERIFIER_SLOTS[i].key && ASSEMBLER_SLOTS[i].verifiable == VERIFIER_SLOTS[i].hasVerifier
  {
    SlotKeysDistinct();
  }

  /** The guard against a green empty bundle never fires, whatever the bundle and the verifiers. */
  lemma NeverGreenEmpty(checks: Checks, given: map<string, string>)
    ensures !GreenEmpty(ReportOf(checks, given))
  {
  }

  lemma {:induction false} CountsPartition(slots: seq<SlotResult>)
    ensures Count(slots, Verified) + Count(slots, Invalid) + Count(slots, SlotAbsent) == |slots|
  {
    if slots != [] { CountsPartition(slots[..|slots| - 1]); }
  }

  lemma {:induction false} CountZero(slots: seq<SlotResult>, state: SlotState)
    ensures Count(slots, state) == 0 <==> forall i :: 0 <= i < |slots| ==> slots[i].state != state
  {
    if slots != [] {
      var init := slots[..|slots| - 1];
      CountZero(init, state);
      assert forall i :: 0 <= i < |init| ==> init[i] == slots[i];
    }
  }

  /** Every slot is placed or absent, never both. */
  lemma {:induction false} PlacedOrAbsent(tokens: map<string, string>, defs: seq<SlotDef>)
    ensures |PlacedIn(tokens, defs)| + |AbsentIn(tokens, defs)| == |defs|
  {
    if defs != [] { PlacedOrAbsent(tokens, defs[..|defs| - 1]); }
  }

  /** Absent slots of the verifier are the assembler's absent list, one for one, over any prefix of the tables. */
  lemma {:induction false} AbsentCounts(tokens: map<string, string>, defs: seq<SlotDef>, slots: seq<SlotResult>)
    requires |defs| == |slots|
    requires forall i :: 0 <= i < |defs| ==> (slots[i].state == SlotAbsent <==> !Placed(tokens, defs[i]))
    ensures Count(slots, SlotAbsent) == |AbsentIn(tokens, defs)|
  {
    if defs != [] {
      var n := |defs| - 1;
      assert forall i :: 0 <= i < n ==> defs[..n][i] == defs[i] && slots[..n][i] == slots[i];
      AbsentCounts(tokens, defs[..n], slots[..n]);
      assert slots[n].state == SlotAbsent <==> !Placed(tokens, defs[n]);
      assert |AbsentOf(tokens, defs[n])| == if Placed(tokens, defs[n]) then 0 else 1;
    }
  }

  /** Every slot an assembled bundle places has a verifier, and the verifier sees it as placed. */
  lemma PlacedIsGraded(checks: Checks, b: Bundle, tokens: map<string, string>, i: nat)
    requires Holds(b, tokens, ASSEMBLER_SLOTS) && i < |VERIFIER_SLOTS|
    ensures var r := ResultOf(checks, b.slots, VERIFIER_SLOTS[i]);
            !r.noVerifier && (r.state == SlotAbsent <==> !Placed(tokens, ASSEMBLER_SLOTS[i]))
  {
    SlotTablesAgree();
    var key := ASSEMBLER_SLOTS[i].key;
    assert key in b.slots <==> Placed(tokens, ASSEMBLER_SLOTS[i]);
  }

  /**
   * ASSEMBLER AND VERIFIER AGREE. A bundle the assembler returned is never rejected for its version or a
   * slot, no slot in it lacks a verifier, its verified and invalid counts add up to the placed slots, and
   * its absent count is the manifest's.
   */
  lemma AssemblerAndVerifierAgree(checks: Checks, b: Bundle, tokens: map<string, string>)
    requires b.v == BUNDLE_V && Holds(b, tokens, ASSEMBLER_SLOTS)
    ensures KnownSlots(b.slots)
    ensures var r := ReportOf(checks, b.slots);
            && (forall i :: 0 <= i < |r.slots| ==> !r.slots[i].noVerifier)
            && r.verified + r.invalid == |b.assembled| && r.absent == |b.absent|
  {
    SlotTablesAgree();
    var rs := ResultsOf(checks, b.slots);
    forall i | 0 <= i < |rs| ensures !rs[i].noVerifier && (rs[i].state == SlotAbsent <==> !Placed(tokens, ASSEMBLER_SLOTS[i])) {
      PlacedIsGraded(checks, b, tokens, i);
    }
    AbsentCounts(tokens, ASSEMBLER_SLOTS, rs);
    PlacedOrAbsent(tokens, ASSEMBLER_SLOTS);
    CountsPartition(rs);
    forall k | k in b.slots ensures exists i :: 0 <= i < |VERIFIER_SLOTS| && VERIFIER_SLOTS[i].key == k {
      var i :| 0 <= i < |ASSEMBLER_SLOTS| && ASSEMBLER_SLOTS[i].key == k;
      assert VERIFIER_SLOTS[i].key == k;
    }
  }

  /**
   * WHAT VERIFIED MEANS. A bundle is VERIFIED exactly when some slot is filled, every filled slot has a
   * verifier that accepts it, and, if it holds a receipt and a grant, the grant binds that receipt.
   */
  lemma VerifiedMeans(checks: Checks, given: map<string, string>)
    ensures ReportOf(checks, given).verdict == VerdictVerified <==>
            && (exists i :: 0 <= i < |VERIFIER_SLOTS| && Supplied(given, VERIFIER_SLOTS[i].key))
            && (forall i :: 0 <= i < |VERIFIER_SLOTS| && Supplied(given, VERIFIER_SLOTS[i].key) ==>
                  VERIFIER_SLOTS[i].hasVerifier && checks.valid(VERIFIER_SLOTS[i].key, given[VERIFIER_SLOTS[i].key]))
            && (Supplied(given, "receipt") && Supplied(given, "execution_grant") ==>
                  checks.binds(given["execution_grant"], given["receipt"]))
  {
    var rs := ResultsOf(checks, given);
    CountZero(rs, Verified);
    CountZero(rs, Invalid);
    assert forall i :: 0 <= i < |rs| ==> rs[i] == ResultOf(checks, given, VERIFIER_SLOTS[i]);
    assert VERIFIER_SLOTS[0].key == "receipt" && VERIFIER_SLOTS[1].key == "execution_grant";
  }
}
