/** Crash recovery: what became of each grant, read from the evidence each adapter left behind. */
module Reconcile {
  import opened Text
  import opened Crypto
  import opened Clock
  import opened GitStore
  import opened PgTables
  import Attestation

  datatype Outcome = Confirmed | Rejected | Released | Indeterminate

  /** Why an entry is in doubt, or ATTEST_VALID. */
  datatype Status =
    | AttestValid
    | NoKeyMaterial
    | UnknownKid
    | KeyNotInForce
    | UnusableKey
    | TargetMismatch
    | AttestAbsent
    | LedgerPreimageAbsent
    | LedgerClaimAbsent
    | DigestMismatch
    | PreimageMismatch
    | OriginUnreadable
    | NoExpectedRepresentation
    | OriginContradicts
    | TokenRejected(why: Attestation.Rejection)

  datatype Adapter = Git | Postgres | Http

  /** `about` is the ref, ledger ref or resource path; `rowStatus` the status column, where there is one. */
  datatype Entry = Entry(
    adapter: Adapter,
    jti: Option<string>,
    outcome: Outcome,
    about: string,
    status: Option<Status>,
    rowStatus: Option<string>)

  /** A stored artifact a caller may hand in: a token string, or some other truthy value. */
  datatype Stored = TokenText(token: string) | NotText

  predicate Truthy(a: Option<Stored>) {
    a.Some? && (a.value.TokenText? ==> a.value.token != "")
  }

  // ---------------------------------------------------------------- the signature gate

  datatype KeyEntry = KeyEntry(
    kid: string,
    status: string,
    validFrom: Date,
    validUntil: Date,
    retiredAt: Date,
    key: Option<Key>)

  type Manifest = seq<KeyEntry>

  function KidOf(token: string): Option<string> {
    var seg := Split(token, '|');
    if |seg| == 4 && seg[1] != "" then Some(seg[1]) else None
  }

  /** The first entry with this kid. */
  function ResolveKeyManifest(keys: Manifest, kid: string): (r: Option<KeyEntry>)
    ensures r.Some? ==> r.value in keys && r.value.kid == kid
  {
    if keys == [] then None
    else if keys[0].kid == kid then Some(keys[0])
    else ResolveKeyManifest(keys[1..], kid)
  }

  predicate CheckKeyWindow(measuredAt: Date, validFrom: Date, validUntil: Date) {
    && measuredAt.At? && validFrom.At? && validUntil.At?
    && !(measuredAt.ms + CLOCK_SKEW_LEEWAY_MS < validFrom.ms || measuredAt.ms - CLOCK_SKEW_LEEWAY_MS > validUntil.ms)
  }

  /** Active, or retired with the evidence dated inside the key's window; any other status is refused. */
  predicate KeyInForce(e: KeyEntry, asOf: Date) {
    if e.status == "active" then true
    else if e.status != "retired" then false
    else CheckKeyWindow(asOf, e.validFrom, if e.validUntil != Missing then e.validUntil else e.retiredAt)
  }

  /** The independently known target: compared whole, or as the ref of a git descriptor. */
  datatype Expected = Exact(value: string) | GitRef(value: string)

  datatype TargetCheck = NotCompared | NoTargetField | Compared(ok: bool)

  function GitRefOfTarget(target: string): Option<string> {
    var at := LastIndexOf(target, '@');
    if !StartsWith(target, "git:") || at < 4 then None else Some(target[4..at])
  }

  function CompareTarget(preimage: string, expected: Option<Expected>): TargetCheck {
    if expected.None? || expected.value.value == "" then NotCompared
    else
      var fields := Split(preimage, '|');
      if |fields| < 5 || fields[4] == "" then NoTargetField
      else if expected.value.GitRef? then Compared(GitRefOfTarget(fields[4]) == Some(expected.value.value))
      else Compared(fields[4] == expected.value.value)
  }

  datatype Gate = Proven(kid: string, preimage: string, target: TargetCheck) | Doubt(status: Status)

  function VerifyStored(c: Crypto, stored: Stored, jti: string, deployment: string, keys: Option<Manifest>,
                        asOf: Date, expected: Option<Expected>): Gate
  {
    if keys.None? then Doubt(NoKeyMaterial)
    else
      var kid := if stored.TokenText? then KidOf(stored.token) else None;
      if kid.None? then Doubt(TokenRejected(Attestation.Malformed))
      else
        var e := ResolveKeyManifest(keys.value, kid.value);
        if e.None? then Doubt(UnknownKid)
        else if !KeyInForce(e.value, asOf) then Doubt(KeyNotInForce)
        else if e.value.key.None? then Doubt(UnusableKey)
        else
          var v := Attestation.VerifyToken(c, stored.token, e.value.key, Attestation.Intended(jti, deployment));
          if v.Invalid? then Doubt(TokenRejected(v.why))
          else
            var t := CompareTarget(v.preimage, expected);
            if t == Compared(false) || t == NoTargetField then Doubt(TargetMismatch)
            else Proven(kid.value, v.preimage, t)
  }

  /**
   * What a CONFIRMED rests on: a token whose signature verifies under a key of the manifest that is in
   * force, over signed bytes that name this grant, this deployment and, if one is known, this target.
   */
  ghost predicate ProvenBy(c: Crypto, token: string, e: KeyEntry, jti: string, deployment: string, asOf: Date,
                           expected: Option<Expected>)
  {
    var seg := Split(token, '|');
    && |seg| == 4 && seg[0] == Attestation.ATOMIC_ATTEST_V && seg[1] == e.kid
    && KeyInForce(e, asOf) && e.key.Some? && c.verify(e.key.value, c.unb64(seg[2]), seg[3])
    && var fields := Split(c.unb64(seg[2]), '|');
    && |fields| >= 3 && fields[0] == Attestation.GATE_PREIMAGE_V && fields[1] == jti && fields[2] == deployment
    && (expected.Some? && expected.value.value != "" ==>
          && |fields| >= 5
          && match expected.value
             case Exact(value) => fields[4] == value
             case GitRef(value) => GitRefOfTarget(fields[4]) == Some(value))
  }

  /** Nothing leaves the gate proven without all of it (the grant binding needs a non-empty jti). */
  lemma GateIsSound(c: Crypto, stored: Stored, jti: string, deployment: string, keys: Option<Manifest>, asOf: Date,
                    expected: Option<Expected>)
    requires VerifyStored(c, stored, jti, deployment, keys, asOf, expected).Proven? && jti != ""
    ensures stored.TokenText? && keys.Some?
    ensures exists e :: e in keys.value && ProvenBy(c, stored.token, e, jti, deployment, asOf, expected)
  {
    var e := ResolveKeyManifest(keys.value, KidOf(stored.token).value).value;
    assert ProvenBy(c, stored.token, e, jti, deployment, asOf, expected);
  }

  // ---------------------------------------------------------------- git

  /** A ref move as the reflog tells it. */
  datatype RefMove = RefMove(ref: string, jti: string)

  datatype LedgerEntry = LedgerEntry(ref: string, object_: string, jtiHash: string)

  datatype LedgerReport = LedgerReport(
    moves: seq<RefMove>,
    missing: seq<RefMove>,
    unattested: seq<RefMove>,
    ledgerWithoutMove: seq<LedgerEntry>)

  /** The markers among the reflog lines of one ref, as moves. */
  function MovesOf(ref: string, lines: seq<string>): seq<RefMove> {
    if lines == [] then []
    else
      MoveOfLine(ref, lines[0]) + MovesOf(ref, lines[1..])
  }

  function MovesIn(repo: Repo, refs: seq<string>): seq<RefMove> {
    if refs == [] then [] else MovesOf(refs[0], ReflogMarkers(repo, refs[0])) + MovesIn(repo, refs[1..])
  }

  /** ledger lists refs of the consumed namespace as they are. */
  predicate ListsOnly(repo: Repo, ledger: seq<LedgerEntry>) {
    forall k :: 0 <= k < |ledger| ==>
      InLedger(ledger[k].ref) && ledger[k].ref in repo.refs
      && ledger[k] == LedgerEntry(ledger[k].ref, repo.refs[ledger[k].ref], HashOfLedgerRef(ledger[k].ref))
  }

  /** And all of them, exactly once. */
  predicate Lists(repo: Repo, ledger: seq<LedgerEntry>) {
    && ListsOnly(repo, ledger)
    && (forall r :: r in repo.refs && InLedger(r) ==>
          LedgerEntry(r, repo.refs[r], HashOfLedgerRef(r)) in ledger)
    && (forall j, k :: 0 <= j < k < |ledger| ==> ledger[j].ref != ledger[k].ref)
  }

  /** Which of the reader's git processes answer: the ledger's, and those of these places in the list of refs. */
  datatype Reads = Reads(ledger: bool, reflogs: set<nat>)

  /** What a reader takes for the ledger; a process that fails lists nothing. */
  predicate ReadsAsLedger(repo: Repo, answered: bool, ledger: seq<LedgerEntry>) {
    if answered then Lists(repo, ledger) else ledger == []
  }

  function EntryFor(repo: Repo, r: string): LedgerEntry
    requires r in repo.refs
  {
    LedgerEntry(r, repo.refs[r], HashOfLedgerRef(r))
  }

  /** The refs looked at so far: all but those still to do. */
  function Seen(repo: Repo, todo: set<string>): Repo { Repo(repo.refs - todo, repo.reflogs) }

  /** A ref outside the ledger is passed over. */
  lemma PassedOver(repo: Repo, todo: set<string>, r: string, ledger: seq<LedgerEntry>)
    requires r in todo && r in repo.refs && !InLedger(r) && Lists(Seen(repo, todo), ledger)
    ensures Lists(Seen(repo, todo - {r}), ledger)
  {
    var before, after := Seen(repo, todo).refs, Seen(repo, todo - {r}).refs;
    assert forall x :: x in after && InLedger(x) ==> x in before && before[x] == after[x];
    assert forall x :: x in before ==> x in after && before[x] == after[x];
  }

  /** One in the ledger gets its entry. */
  lemma ListedNext(repo: Repo, todo: set<string>, r: string, ledger: seq<LedgerEntry>)
    requires r in todo && r in repo.refs && InLedger(r) && Lists(Seen(repo, todo), ledger)
    ensures Lists(Seen(repo, todo - {r}), ledger + [EntryFor(repo, r)])
  {
    var before, after, more := Seen(repo, todo).refs, Seen(repo, todo - {r}).refs, ledger + [EntryFor(repo, r)];
    assert r !in before && after[r] == repo.refs[r];
    assert forall x :: x in before ==> x in after && before[x] == after[x];
    forall k | 0 <= k < |more|
      ensures InLedger(more[k].ref) && more[k].ref in after
      ensures more[k] == LedgerEntry(more[k].ref, after[more[k].ref], HashOfLedgerRef(more[k].ref))
    {
      if k < |ledger| { assert more[k] == ledger[k]; }
    }
    forall x | x in after && InLedger(x) ensures LedgerEntry(x, after[x], HashOfLedgerRef(x)) in more {
      if x == r { assert more[|ledger|] == EntryFor(repo, r); } else { assert x in before; }
    }
  }

  method ListConsumedLedger(repo: Repo, answered: bool) returns (ledger: seq<LedgerEntry>)
    ensures ReadsAsLedger(repo, answered, ledger)
  {
    ledger := [];
    if !answered { return; }
    var todo := repo.refs.Keys;
    while todo != {}
      invariant todo <= repo.refs.Keys
      invariant Lists(Seen(repo, todo), ledger)
      decreases |todo|
    {
      var r :| r in todo;
      if InLedger(r) {
        ListedNext(repo, todo, r, ledger);
        ledger := ledger + [EntryFor(repo, r)];
      } else {
        PassedOver(repo, todo, r, ledger);
      }
      todo := todo - {r};
    }
    assert Seen(repo, {}) == repo;
  }

  type Attestations = map<string, Stored>

  function Lookup(atts: Attestations, jti: string): Option<Stored> {
    if jti in atts then Some(atts[jti]) else None
  }

  function LedgerReportOf(c: Crypto, ledger: seq<LedgerEntry>, moves: seq<RefMove>, atts: Attestations): LedgerReport {
    var haveHash := set e | e in ledger :: e.jtiHash;
    var seen := set m: RefMove | m in moves :: c.sha256hex(m.jti);
    LedgerReport(
      moves,
      Filter(moves, (m: RefMove) => c.sha256hex(m.jti) !in haveHash),
      Filter(moves, (m: RefMove) => !Truthy(Lookup(atts, m.jti))),
      Filter(ledger, (e: LedgerEntry) => e.jtiHash !in seen))
  }

  /** The move one reflog line stands for, if it is a marker. */
  function MoveOfLine(ref: string, line: string): seq<RefMove> {
    if StartsWith(line, MARKER_PREFIX) then [RefMove(ref, line[|MARKER_PREFIX|..])] else []
  }

  lemma {:induction false} MovesOfTake(ref: string, lines: seq<string>, j: nat)
    requires j < |lines|
    ensures MovesOf(ref, lines[..j + 1]) == MovesOf(ref, lines[..j]) + MoveOfLine(ref, lines[j])
  {
    assert lines[..j + 1][1..] == lines[1..][..j];
    if j > 0 {
      assert lines[..j][1..] == lines[1..][..j - 1];
      MovesOfTake(ref, lines[1..], j - 1);
    }
  }

  lemma {:induction false} MovesInTake(repo: Repo, refs: seq<string>, i: nat)
    requires i < |refs|
    ensures MovesIn(repo, refs[..i + 1]) == MovesIn(repo, refs[..i]) + MovesOf(refs[i], ReflogMarkers(repo, refs[i]))
  {
    assert refs[..i + 1][1..] == refs[1..][..i];
    if i > 0 {
      assert refs[..i][1..] == refs[1..][..i - 1];
      MovesInTake(repo, refs[1..], i - 1);
    }
  }

  /** The refs whose reflog was read. */
  function AnsweredRefs(refs: seq<string>, heard: set<nat>): seq<string> {
    if refs == [] then []
    else
      var n := |refs| - 1;
      AnsweredRefs(refs[..n], heard) + (if n in heard then [refs[n]] else [])
  }

  lemma AnsweredTake(repo: Repo, refs: seq<string>, heard: set<nat>, i: nat)
    requires i < |refs|
    ensures MovesIn(repo, AnsweredRefs(refs[..i + 1], heard))
         == MovesIn(repo, AnsweredRefs(refs[..i], heard))
            + MovesOf(refs[i], if i in heard then ReflogMarkers(repo, refs[i]) else [])
  {
    assert refs[..i + 1][..i] == refs[..i];
    var before := AnsweredRefs(refs[..i], heard);
    if i in heard {
      var after := before + [refs[i]];
      MovesInTake(repo, after, |before|);
      assert after[..|before| + 1] == after && after[..|before|] == before;
    } else {
      assert before + [] == before;
    }
  }

  /** The inner loop: push the moves of one reflog. */
  method PushMoves(before: seq<RefMove>, ref: string, lines: seq<string>) returns (moves: seq<RefMove>)
    ensures moves == before + MovesOf(ref, lines)
  {
    moves := before;
    for j := 0 to |lines|
      invariant moves == before + MovesOf(ref, lines[..j])
    {
      MovesOfTake(ref, lines, j);
      if StartsWith(lines[j], MARKER_PREFIX) {
        moves := moves + [RefMove(ref, lines[j][|MARKER_PREFIX|..])];
      }
    }
    assert lines[..|lines|] == lines;
  }

  /** The inspected refs' marker lines, as moves, in the order they are read; a reflog read that fails is empty. */
  method CollectMoves(repo: Repo, refs: seq<string>, heard: set<nat>) returns (moves: seq<RefMove>)
    ensures moves == MovesIn(repo, AnsweredRefs(refs, heard))
  {
    moves := [];
    for i := 0 to |refs|
      invariant moves == MovesIn(repo, AnsweredRefs(refs[..i], heard))
    {
      AnsweredTake(repo, refs, heard, i);
      var lines := if i in heard then ReflogMarkers(repo, refs[i]) else [];
      moves := PushMoves(moves, refs[i], lines);
    }
    assert refs[..|refs|] == refs;
  }

  method ReconcileLedger(c: Crypto, repo: Repo, refs: seq<string>, atts: Attestations, answers: Reads)
    returns (r: LedgerReport, ledger: seq<LedgerEntry>)
    ensures ReadsAsLedger(repo, answers.ledger, ledger)
    ensures r == LedgerReportOf(c, ledger, MovesIn(repo, AnsweredRefs(refs, answers.reflogs)), atts)
  {
    ledger := ListConsumedLedger(repo, answers.ledger);
    var moves := CollectMoves(repo, refs, answers.reflogs);
    r := LedgerReportOf(c, ledger, moves, atts);
  }

  /** What reconciliation needs to know beside the evidence. */
  datatype Trust = Trust(keys: Option<Manifest>, deployment: string, asOf: Date)

  /** A signing key an executor uses is in force: listed under its kid, first, and active. */
  predicate SignerInForce(t: Trust, kid: string, key: Key) {
    && kid != "" && '|' !in kid && t.keys.Some?
    && var e := ResolveKeyManifest(t.keys.value, kid);
    && e.Some? && e.value.status == "active" && e.value.key == Some(key)
  }

  function GitEntryOf(c: Crypto, mv: RefMove, r: LedgerReport, atts: Attestations, t: Trust): Entry {
    if exists m :: m in r.missing && m.jti == mv.jti
    then Entry(Git, Some(mv.jti), Indeterminate, mv.ref, Some(LedgerClaimAbsent), None)
    else if (exists m :: m in r.unattested && m.jti == mv.jti) || mv.jti !in atts
    then Entry(Git, Some(mv.jti), Indeterminate, mv.ref, Some(AttestAbsent), None)
    else
      var v := VerifyStored(c, atts[mv.jti], mv.jti, t.deployment, t.keys, t.asOf, Some(GitRef(mv.ref)));
      if v.Proven? then Entry(Git, Some(mv.jti), Confirmed, mv.ref, Some(AttestValid), None)
      else Entry(Git, Some(mv.jti), Indeterminate, mv.ref, Some(v.status), None)
  }

  function ReleasedEntry(e: LedgerEntry): Entry { Entry(Git, None, Released, e.ref, None, None) }

  function GitEntries(c: Crypto, r: LedgerReport, atts: Attestations, t: Trust): seq<Entry> {
    seq(|r.moves|, k requires 0 <= k < |r.moves| => GitEntryOf(c, r.moves[k], r, atts, t))
    + Map(r.ledgerWithoutMove, ReleasedEntry)
  }

  lemma EntriesAre(c: Crypto, r: LedgerReport, atts: Attestations, t: Trust, moved: seq<Entry>)
    requires |moved| == |r.moves| && forall k :: 0 <= k < |moved| ==> moved[k] == GitEntryOf(c, r.moves[k], r, atts, t)
    ensures GitEntries(c, r, atts, t) == moved + Map(r.ledgerWithoutMove, ReleasedEntry)
  {
    assert moved == seq(|r.moves|, k requires 0 <= k < |r.moves| => GitEntryOf(c, r.moves[k], r, atts, t));
  }

  method ReconcileGit(c: Crypto, repo: Repo, refs: seq<string>, atts: Attestations, t: Trust, answers: Reads)
    returns (out: seq<Entry>, ledger: seq<LedgerEntry>)
    ensures ReadsAsLedger(repo, answers.ledger, ledger)
    ensures out ==
            GitEntries(c, LedgerReportOf(c, ledger, MovesIn(repo, AnsweredRefs(refs, answers.reflogs)), atts), atts, t)
  {
    var r;
    r, ledger := ReconcileLedger(c, repo, refs, atts, answers);
    out := MapReport(c, r, atts, t);
  }

  /** reconcileGit after its ledger read: one entry per move, then one per claim without a move. */
  method MapReport(c: Crypto, r: LedgerReport, atts: Attestations, t: Trust) returns (out: seq<Entry>)
    ensures out == GitEntries(c, r, atts, t)
  {
    out := GitMoveEntries(c, r, atts, t);
    ghost var moved := out;
    EntriesAre(c, r, atts, t, moved);
    for i := 0 to |r.ledgerWithoutMove|
      invariant out == moved + Map(r.ledgerWithoutMove[..i], ReleasedEntry)
    {
      MapTake(r.ledgerWithoutMove, ReleasedEntry, i);
      out := out + [ReleasedEntry(r.ledgerWithoutMove[i])];
    }
    assert r.ledgerWithoutMove[..|r.ledgerWithoutMove|] == r.ledgerWithoutMove;
  }

  /** The first of reconcileGit's two loops. */
  method GitMoveEntries(c: Crypto, r: LedgerReport, atts: Attestations, t: Trust) returns (out: seq<Entry>)
    ensures |out| == |r.moves| && forall k :: 0 <= k < |out| ==> out[k] == GitEntryOf(c, r.moves[k], r, atts, t)
  {
    out := [];
    var missing := set m: RefMove | m in r.missing :: m.jti;
    var unattested := set m: RefMove | m in r.unattested :: m.jti;
    for i := 0 to |r.moves|
      invariant |out| == i
      invariant forall k :: 0 <= k < i ==> out[k] == GitEntryOf(c, r.moves[k], r, atts, t)
    {
      var mv := r.moves[i];
      var e;
      if mv.jti in missing {
        e := Entry(Git, Some(mv.jti), Indeterminate, mv.ref, Some(LedgerClaimAbsent), None);
      } else if mv.jti in unattested || mv.jti !in atts {
        e := Entry(Git, Some(mv.jti), Indeterminate, mv.ref, Some(AttestAbsent), None);
      } else {
        var v := VerifyStored(c, atts[mv.jti], mv.jti, t.deployment, t.keys, t.asOf, Some(GitRef(mv.ref)));
        if v.Proven? {
          e := Entry(Git, Some(mv.jti), Confirmed, mv.ref, Some(AttestValid), None);
        } else {
          e := Entry(Git, Some(mv.jti), Indeterminate, mv.ref, Some(v.status), None);
        }
      }
      out := out + [e];
    }
  }
}
