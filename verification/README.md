# CodeRifts capability demo: a verified model

A CodeRifts grant is a signed permission to make one change to one target, once. This project models
how such a grant is spent, how the spend is recovered after a crash, how the signed encodings bind
what they carry, and how graders decide that a claim about structured state holds.

The model has three connected parts.

**One use and crash recovery.** `GitProtocol`, `Postgres` and `HttpOrigin` are step machines: any
number of concurrent calls, interleaved at the points where the code gives up control, with crashes,
the passing of time, hook-filtered pushes, foreign writers and reclaim. Every theorem quantifies over
all runs. `GitExecutor`, `PostgresExecutor` and `HttpExecutor` hold the same calls as methods on
objects whose fields are the stores; their ghost fields name the run of the machine the object is at, so what
is proved of runs is proved of the methods. `Reconcile` and `ReconcileAll` are the readers;
`GitRecoveryExact`, `GitEvidence`, `PostgresRecovery` and `HttpSafety` say what the readers answer on every
reachable state. `GitDrift`, `GitConsumed`, `GitMarkers`, `GitReadings`, `GitRecoveryRuns`, `PostgresDrift`,
`PostgresDigest`, `PostgresRuns` and `HttpReplay` say exactly when an answer misleads, and give the runs in which
it does.

**Signed encodings.** `Json`, `JsonTokens` and `JsonCanon` prove canonical JSON uniquely decodable and
blind to member order; `EvidenceRoot`, `EvidenceBinding` and `EvidenceCollage` build the evidence root
on it, and `GrantV2` the grants signed as canonical JSON. `Grant`, `Receipt`, `Checkpoint`, `Correlation`
and `Attestation` treat the joined signing inputs.

**Graders and differs.** `GitObserver` and `Transition` (a tree moved by exactly the authorized bytes),
`Posture` (live catalogue against baseline), `Bundle` (assembler against verifier), `GovernedContract`
(normal form of contract bytes).

Cryptography is idealised in `Crypto`: sha256 is injective and prints hexadecimal (`IdealHash`); base64url
(section 5 of RFC 4648) decodes what it encoded, and what a key signed verifies under it (`Ideal`).
`Crypto.IdealIsPossible` gives primitives with all these properties, so no theorem rests on a contradiction
among them. That a key verifies nothing but what its owner signed is a hypothesis of the theorems that need
it, over `IdealHash` alone and for one format's prefix each, so that one key may sign several formats
(`SignsOnlyRoots`, `SignsOnlyIssued`, `SignsOnlySealed`, `SignsOnly`); the adapters share one prefix, so
`SignsOnlySealed` also takes what was sealed elsewhere under the same keys. Every theorem holds for all
primitives with the properties it names.

## What the proofs found

- **The all-zero object id breaks one use.** Forty zeros pass the 40-hex test, git reads them as
  "delete", and the same grant lands again without leaving a claim: `GitReclaimBound.ZeroOidSpendsTwice`.
  All run theorems therefore assume non-zero new values (`GitProtocol.GovernedRun`).
- **A ref inside the ledger namespace does not break one use** once new values are non-zero. It only
  makes the reported facts about claims unreliable, so it is excluded where those facts are stated
  (`GitSafety.LedgerUntargeted`) and nowhere else.
- **The reclaim leeway is exact.** One use holds over all runs if and only if reclaim waits 30 s plus the
  verifier's clock lag plus the longest gap between verification and batch
  (`GitReclaimBound.ReclaimBoundIsExact`); the default suffices exactly when both are zero.
- **A create-only pin that contains '@' costs the confirmation.** `demo/src/reconcile.js:214-217` says the
  tail of a target descriptor holds no '@'; an `absent:` pin may, and a kept token then reads back another ref
  and reconciles INDETERMINATE (`GitRecovery.DescriptorRoundTrip`). It never confirms another ref.
- **A grant id ending in white space is never found in the reflog**, because lines are read trimmed
  (`GitMarkers.MarkerIsFoundIff`). Its move reads as one of the trimmed id: if that is another grant, it is
  refused on that ref as consumed (`GitMarkers.BlankTwinIsRefused`) and reported as a move in doubt, although it
  never landed (`GitRecoveryRuns.BlankTwinIsReported`). The replay check refuses exactly the grants recorded on a
  ref if and only if no id recorded there ends in white space (`GitMarkers.ReplayCheckIsExactIff`).
- **STATE_DRIFT can be believed only where a claim still reads as one.** The claim is re-read through
  `^{commit}`, so a claim on a tree or blob (a new value a tag accepts) reads as absent, as does any claim when
  the reading process fails (`GitDrift.SpentGrantDrifts`), and one that was reclaimed while the refused call
  stalled (`GitDrift.StalledReadDrifts`); the grant is then called unspent although it landed. The answer is true
  in every run, whatever is reclaimed or aimed at, if and only if refs can be moved to commits only, reads do not
  fail, and reclaim waits 30 s plus clock lag plus gap plus stall (`GitDrift.DriftIsTrueIff`).
- **A refusal may deny the call's own move.** If git is killed once its ref transaction is through, the batch
  reads as refused: the call answers GRANT_CONSUMED for the grant it has just spent, or STATE_DRIFT if the
  object is no commit, over a ref that moved and is never sealed (`GitDrift.OwnMoveIsDenied`). One use and the
  recovery theorems hold all the same.
- **GRANT_CONSUMED may be said of a grant that never landed.** The hook accepts a pushed claim, and the re-read
  takes it for a spend (`GitConsumed.PushedClaimRefuses`). Of a grant neither reclaimed nor named by a call's ref
  the answer is true if and only if nobody pushed its claim (`GitConsumed.ConsumedIsTrueIff`).
- **A Postgres token can confirm a git move that was never sealed.** All adapters seal under one preimage
  prefix. A Postgres row whose target id is spelt like a git descriptor of a ref, and no other, passes for that
  ref (`GitEvidence.PostgresPassesForRefIff`), so with a shared key and the same grant a crashed git call is
  reported CONFIRMED (`GitEvidence.LookalikeConfirms`). HTTP tokens never pass for a ref
  (`GitEvidence.HttpNeverPassesForRef`), nor git tokens for a path (`GitEvidence.GitNeverPassesForPath`).
- **Some landed moves are reported RELEASED.** A move on a ref without a reflog, or one that writes the value
  already held, leaves no marker; `reconcileGit` then reports its claim as one without a move, even with its
  token kept (`GitRecoveryRuns.UnloggedMoveIsReleased`, `GitRecoveryRuns.SameValueIsReleased`). The two
  readings `demo/src/reconcile.js:459-461` offers for RELEASED do not include this. A move is reported as a move
  if and only if it is recorded on an inspected ref (`GitRecoveryExact.RecoveryIsComplete`).
- **A failed read changes the report.** When the ledger cannot be listed, every reported move is INDETERMINATE
  and nothing is RELEASED (`GitReadings.UnreadLedgerDecidesNothing`); when a reflog cannot be read, the moves
  recorded there turn into RELEASED claims (`GitReadings.UnreadReflogReleases`).
- **A pushed claim under a wrong shard name** that ends in a landed grant's hash is not reported as a claim
  without a move (`GitRecoveryRuns.MisshardedPushIsSilent`); with all moves in view the report is right if and
  only if there is none (`GitRecoveryExact.PushedClaimsShowIff`).
- **The git adapter's `consumeOnce` reports every grant consumed** once it is given a repository, because it
  takes the text for an absent ref as a claim (`GitDrift.PrecheckIsRightIff`).
- **An empty intended jti skips the grant binding** (`Attestation.EmptyIntentIsUnbound`), so the no-proof
  theorem speaks about named grants.
- **The Postgres state check holds no lock on the article.** What a committed deploy removed is the row as the
  last writer between check and write left it: the challenged one if and only if nobody wrote it in between or
  the last write put the same content back (`PostgresDrift.DeployRemovesChallengedIff`). A replaced row is
  deleted unchallenged (`PostgresRuns.CheckedRowMayChange`), and after another grant's deploy the call seals and
  returns success over an empty mutation (`PostgresRuns.EmptyDeploySucceeds`). One use and the evidence
  theorems do not depend on it.
- **A challenge's digest joins title and body unguarded.** It is the digest of no other state of the row if and
  only if neither holds a colon (`PostgresDigest.DigestPinsIff`).
- **SEAL_FAILED may follow a commit.** If COMMIT takes effect and its acknowledgement is lost, the call answers
  SEAL_FAILED over changed tables, and recovery confirms the grant (`PostgresRuns.LostAckIsSealFailed`). Every
  other refusal committed nothing (`PostgresRecovery.CommittedMeansSealed`).
- **Stored evidence need not be readable.** `demo/sql/seal.sql:151-154` says a token that would reconcile
  INDETERMINATE can never be stored; one with an empty kid can (`PostgresExecutor.KidlessTokenIsStored`).
- **HTTP recovery calls some landed writes REJECTED**: exactly those without a kept token whose resource is
  shown with a later ETag, or without one (`HttpSafety.LandedIsRejectedIff`), so a lost reply or a crash followed
  by anyone's write is enough (`HttpSafety.LandedWriteIsRejected`). `demo/src/reconcile.js:604` promises
  INDETERMINATE for an answer without an ETag.
- **Replayed answers undo two HTTP guarantees.** The grant id travels as an idempotency key, and section 13.1.1
  of RFC 9110 lets an origin answer 2xx when the change appears to be applied already. Two calls then return ok
  on one pin over a single write (`HttpReplay.TwinReturnsOk`), and a retry of an answered request accuses an
  honest origin of ignoring If-Match (`HttpReplay.RetryAccuses`). For any calls, one pin means at most one ok in
  every run if and only if no call that shares its pin can be taken for a repeat of another (also of one with
  another pin) or of what another user agent may ask for (`HttpReplay.OnePerPinIff`); where changes are recognised
  whoever made them, that is where no two calls share a pin (`HttpReplay.ChangesDecide`). The accusation is right
  in every run if and only if no call pinned to an ETag can be so taken (`HttpReplay.AccusedRightlyIff`). At most one write lands per pin in any case.
- **File names that blend.** Changed paths are read trimmed, so a file whose name is the governed path with
  blanks around it, or only blanks, travels unseen; and git prints unusual names in quotes, so one name may print as
  another is spelt. For commits with a parent, PROVEN means an exact move if and only if no file name but the
  governed path passes for it (`Transition.NamesDecide`). A move that changes a governed path which git quotes, or
  which has blanks at its ends beside other characters, is never PROVEN (`Transition.OddPathRefuses`).
- **A commit message can forge a parent.** Parents are read from every printed line that starts with
  "parent ", message lines included. PROVEN means an exact move for every message if and only if the commit has
  a true parent (`Transition.ParentsDecide`, `Transition.MessageForgesParent`), and an exact move whose own
  message has such a line is refused (`Transition.OwnParentLineRefuses`).
- **Optional v1 grant fields carry no slot and no delimiter guard** (`Grant.LoneOptionalHasNoSlot`,
  `Grant.UnguardedOptionalSplits`); correlation fields are not guarded either, and a correlation's preimage
  is nobody else's if and only if no field holds the separator (`Correlation.BoundIffPlain`).
- **Version 2 grants ignore key statuses other than retired and revoked**, where version 1 refuses them
  (`GrantV2.OtherStatusIsIgnored`).
- **Posture compares arrays by their joined text.** For comma-free elements that is equality, except that no
  element and one empty string agree (`Posture.ArraysAgreeIff`); a comma inside an element hides a boundary
  (`Posture.CommaHidesElements`).

## Model

| member | source | states |
|---|---|---|
| Reclaim.EligibleMeansDead | demo/src/git-atomic.js:191-259 | An entry eligible for reclaim is not INDETERMINATE, has an expiry somebody vouched for as signed, and its grant is already refused as expired at that time |
| GitStore.PreReceive | demo/src/ledger-hook.js:64-82 | The hook's loop exits 0 exactly when no command deletes or overwrites a claim, and names every refused ref |
| GitStore.LedgerAppendOnly | demo/src/ledger-hook.js:64-82 | Under an accepting hook a push leaves every existing claim present with its value |
| GitStore.ReceivePackLogs | demo/src/git-atomic.js:414-418 | A line that is not a push's own stands after a push exactly where it stood before, on the refs the push did not delete |
| GitStore.LedgerRefInjective | demo/src/git-atomic.js:173-176 | Distinct grants have distinct claim names |
| GitStore.LedgerRefHash | demo/src/git-atomic.js:632-639 | The last component of a claim's name is the grant's full hash |
| GitStore.ReadLinesIn | demo/src/git-atomic.js:414-418 | A line is read from a reflog exactly when it is a non-empty trimmed message |
| GitSafety.OneUseOverRuns | demo/src/git-atomic.js:469-521 | Over every run each grant lands at most one move, and its claim stands until reclaimed |
| GitSafety.ClaimAndMoveTogether | demo/src/git-atomic.js:477-521 | A step lands one move with its claim, both from the pinned state, or no move and no new claim |
| GitSafety.DriftMeansUnspent | demo/src/git-atomic.js:523-565 | If the grant of a refused batch had landed by the re-read, the answer is STATE_DRIFT exactly when the moved-to object is no commit or the re-read failed, and GRANT_CONSUMED otherwise; if it had been reclaimed by then, STATE_DRIFT unless somebody pushed the claim |
| GitDrift.DriftIsTrueIff | demo/src/git-atomic.js:523-565 | STATE_DRIFT is true of every call in every run, reclaimed grants and calls aimed at the ledger included, if and only if refs can be moved to commits only, reads do not fail, and the leeway covers 30 s, clock lag, gap and stall (or no ref can be moved at all) |
| GitDrift.StalledReadDrifts | demo/src/git-atomic.js:239-259 | A run in which a refused call stalls past the reclaim of its grant and is told STATE_DRIFT, unspent |
| GitDrift.SpentGrantDrifts | demo/src/git-atomic.js:372-376 | A run in which a tag moved to a non-commit, or a later read failed, and the same grant was then told STATE_DRIFT, unspent |
| GitDrift.OwnMoveIsDenied | demo/src/git-atomic.js:352-363 | A run in which git is killed after its transaction and the call answers GRANT_CONSUMED or STATE_DRIFT for the move its own batch made |
| GitConsumed.ConsumedIsTrueIff | demo/src/git-atomic.js:523-542 | Of a call told GRANT_CONSUMED after its batch (grant not reclaimed, no call aimed at its claim) the grant had landed by the re-read if and only if no push created its claim |
| GitConsumed.PushedClaimRefuses | demo/src/git-atomic.js:530-542 | A run in which the hook accepts a pushed claim and the unused grant is refused as consumed |
| GitDrift.PrecheckIsRightIff | demo/src/git-atomic.js:701-717 | The pre-check reports every grant consumed once given a repository, so it is right exactly where a claim on a commit stands |
| GitSafety.BatchNeedsFreeClaim | demo/src/git-atomic.js:507-521 | A batch lands only over an absent claim and the pinned value, writes exactly those two refs, and touches no other |
| GitSafety.SafeRun | demo/src/git-atomic.js:438-596 | The safety invariant holds in every state a governed run reaches |
| GitSafety.PushKeepsLedger | demo/src/ledger-hook.js:64-82 | Pushes keep every landed move's claim |
| GitSafety.ReclaimKeepsLedger | demo/src/git-atomic.js:239-259 | Reclaiming one grant keeps the claims of all others |
| GitSafety.ClaimIsSeenIffCommit | demo/src/git-atomic.js:372-376 | The ledger re-read sees a landed, unreclaimed grant's claim if and only if the moved-to object is a commit |
| GitReclaimBound.ReclaimBoundIsExact | demo/src/git-atomic.js:239-259 | One use holds over all governed runs if and only if the leeway covers 30 s, clock lag and gap |
| GitReclaimBound.DefaultLeewayIsTight | demo/src/git-atomic.js:244-245 | With the default leeway that is exactly zero lag and zero gap |
| GitReclaimBound.ShortLeewaySpendsTwice | packages/verifier-core/verify.js:63-66 | Below the bound there is a run in which one grant lands twice |
| GitReclaimBound.ZeroOidSpendsTwice | demo/src/git-atomic.js:156 | With the all-zero new value there is a run in which one grant lands twice and leaves no claim |
| GitExecutor.Repository.constructor | demo/src/git-atomic.js:438-441 | A new repository is at the empty run |
| GitExecutor.Repository.UpdateBoth | demo/src/git-atomic.js:507-513 | The two updates land together exactly when both compare, and otherwise change nothing |
| GitExecutor.Repository.CheckCall | demo/src/git-atomic.js:442-475 | The side-effect-free refusals, in order, ending with the same-ref replay check |
| GitExecutor.Repository.ExplainFailure | demo/src/git-atomic.js:523-565 | A failed batch is GRANT_CONSUMED when the claim reads present, else STATE_DRIFT with pin and current value; a read that fails reads absent |
| GitExecutor.Repository.Evidence | demo/src/git-atomic.js:567-595 | After the move the answer is the sealed token over this call's preimage, or the crash hook's throw |
| GitExecutor.Repository.AttemptBatch | demo/src/git-atomic.js:352-363 | The batch has its whole effect or none, and reads as refused when it has none or when git is killed once it is through |
| GitExecutor.Repository.MoveAndSeal | demo/src/git-atomic.js:477-595 | The repository shows exactly the batch's effect or none of it; success or a crash exactly when the batch landed and git lived, every other answer explains a refusal from what the re-reads find |
| GitExecutor.Repository.GitAtomicExecute | demo/src/git-atomic.js:438-596 | The whole call: the repository is untouched or shows the batch's effect, the latter under success, a crash, or the refusal of a call whose git was killed after its batch; answer and token as above, and the object is at a run of the machine that ends the same way |
| GitRecovery.DescriptorRoundTrip | demo/src/reconcile.js:218-222 | The ref is read back from a descriptor exactly when the pin holds no '@' |
| GitRecovery.HexPinHasNoAt | demo/src/git-atomic.js:156 | A 40-hex pin never holds '@' |
| GitRecovery.RecoveredRefIsTrue | demo/src/reconcile.js:218-222 | A recovered name without ':' is the true ref, for every accepted pin |
| GitRecovery.GateOnSealed | demo/src/reconcile.js:306-382 | A produced token passes the gate for its own grant exactly when its descriptor gives back the asked ref |
| GitRecovery.NeverProvenForAnotherRef | demo/src/reconcile.js:231-251 | A produced token never passes for another ref |
| GitRecovery.BatchLogs | demo/src/git-atomic.js:500-513 | A landed batch adds its marker to the target's reflog (if logged and changed) and to nothing else but the claim's |
| GitRecovery.RecordedRun | demo/src/git-atomic.js:469-521 | Over every run reflog lines are explained by landed moves, a move's marker stands exactly while it is recorded, and ledger refs have a known origin |
| GitRecoveryExact.RecoveryIsExact | demo/src/reconcile.js:401-465 | Every entry for a reflog marker is about a landed move and says CONFIRMED exactly when its seal was kept, the pin holds no '@' and its claim is listed (as it is until reclaimed), else INDETERMINATE |
| GitRecoveryExact.RecoveryIsComplete | demo/src/reconcile.js:401-465 | A landed move is reported as a move if and only if it is recorded on an inspected ref; otherwise, and only then, its standing claim is reported RELEASED, whatever tokens were kept |
| GitEvidence.UnsignedIsNeverConfirmed | demo/src/reconcile.js:306-465 | Over every run and for arbitrary evidence, a move is CONFIRMED only if the call that landed it went on to sign, or a token sealed elsewhere under the same keys passes for it |
| GitEvidence.SealedPassesIff | demo/src/reconcile.js:306-382 | A token sealed over any preimage passes the gate exactly when the preimage names the grant and deployment and its target passes |
| GitEvidence.PostgresPassesForRefIff | demo/src/reconcile.js:231-251 | What a Postgres execution signs passes for a ref exactly when it is for the same grant and deployment and its target id is spelt like a descriptor of that ref |
| GitEvidence.HttpNeverPassesForRef | demo/src/reconcile.js:231-251 | What an HTTP execution signs never passes for a ref |
| GitEvidence.GitNeverPassesForPath | demo/src/reconcile.js:231-251 | What a git execution signs never passes for a path |
| GitEvidence.LookalikeConfirms | demo/src/reconcile.js:306-465 | A run in which a git call crashes before its seal and a Postgres token makes the reader say CONFIRMED of its move |
| GitRecoveryRuns.UnloggedMoveIsReleased | demo/src/reconcile.js:454-462 | A run whose sealed, returned move on an unlogged ref is reported only as a RELEASED claim, token in hand |
| GitRecoveryRuns.SameValueIsReleased | demo/src/reconcile.js:454-462 | The same for a move that writes the value its logged ref already holds |
| GitRecoveryExact.LedgerInStep | demo/src/git-atomic.js:650-691 | Over every run only reclaimed grants are reported missing, and the claims without a move are exactly those whose hash no recorded, inspected move has |
| GitRecoveryExact.PushedClaimsShowIff | demo/src/git-atomic.js:666-671 | With all moves in view, the claims reported without a move are exactly the pushed ones if and only if no pushed claim is mis-sharded |
| GitRecoveryRuns.MisshardedPushIsSilent | demo/src/git-atomic.js:666-671 | A run in which the hook accepts a mis-sharded claim that is then not reported |
| GitRecoveryExact.KeptIsSealedFor | demo/src/reconcile.js:433-438 | A token kept under a jti is the one the landed move's own call sealed, which is where one use is needed |
| GitMarkers.MarkerIsFoundIff | demo/src/git-atomic.js:414-418 | A marker in a reflog is found by the trimmed comparison exactly when its jti does not end in white space |
| GitMarkers.MarkersTell | demo/src/git-atomic.js:414-418 | Over every run a grant's marker is read on a ref exactly when a recorded move there has that id once trimmed |
| GitMarkers.ReplayCheckIsExactIff | demo/src/git-atomic.js:469-475 | The replay check finds exactly the grants recorded on a ref if and only if no id recorded there ends in white space |
| GitMarkers.BlankTwinIsRefused | demo/src/git-atomic.js:469-475 | A run in which a grant that never landed is refused as consumed because of one whose id only adds a blank |
| GitRecoveryRuns.BlankTwinIsReported | demo/src/git-atomic.js:654-661 | In that run the reader reports the grant that never landed as a move in doubt |
| GitMarkers.LandedBehind | demo/src/git-atomic.js:654-661 | Every reported move is a landed one with that ref and grant |
| GitMarkers.ReportedIffRecorded | demo/src/git-atomic.js:654-661 | A landed move on an inspected ref is reported if and only if it is recorded |
| Attestation.SealedVerifies | demo/src/atomic.js:52-114 | A sealed token verifies exactly for the grant and deployment it was sealed for, and gives its preimage back |
| Attestation.EmptyIntentIsUnbound | demo/src/atomic.js:91-92 | With an empty intended jti a token of any grant verifies |
| Attestation.PreimageFields | demo/src/git-atomic.js:577 | A preimage of delimiter-free fields reads back as its five fields |
| Attestation.TokenSegments | demo/src/atomic.js:52-59 | A token reads back as its four segments |
| Reconcile.GateIsSound | demo/src/reconcile.js:306-382 | Whatever passes the gate verifies under an in-force manifest key over bytes naming this grant, deployment and target |
| Reconcile.ListConsumedLedger | demo/src/git-atomic.js:632-639 | Lists every ref of the ledger namespace once, with its object and hash; nothing if the git process fails |
| Reconcile.ReconcileLedger | demo/src/git-atomic.js:650-691 | Moves, missing, unattested and unmoved entries as functions of the reflogs that could be read, ledger and attestations |
| GitReadings.UnreadLedgerDecidesNothing | demo/src/git-atomic.js:632-691 | With an unread ledger every reported move is INDETERMINATE for want of a claim and nothing is RELEASED |
| GitReadings.UnreadReflogReleases | demo/src/git-atomic.js:414-418 | Over every run a landed move is reported as a move if and only if it is recorded on a ref whose reflog was read; otherwise, and only then, its standing claim is RELEASED |
| Reconcile.ReconcileGit | demo/src/reconcile.js:401-465 | One entry per reported move and one per claim without a move, in order |
| Reconcile.GitMoveEntries | demo/src/reconcile.js:410-451 | The loop over moves gives each its entry by claim, presence and gate |
| Reconcile.MapReport | demo/src/reconcile.js:404-465 | Both loops of the git reader, in order |
| ReconcileAll.ReconcilePostgres | demo/src/reconcile.js:482-588 | One entry per asked grant, decided by row, evidence, preimage comparison and gate |
| ReconcileAll.ReconcileHttp | demo/src/reconcile.js:610-711 | One entry per item, decided by the origin's answer and the gate |
| ReconcileAll.ReconcileAdapters | demo/src/reconcile.js:762-805 | All downgraded entries in adapter order, counts that sum to them, and the worst outcome present |
| ReconcileAll.RollUp | demo/src/reconcile.js:793-804 | Counts per outcome are exact and sum to the entries; the headline is present and no entry is worse |
| ReconcileAll.NoConfirmedWithoutProof | demo/src/reconcile.js:723-804 | For arbitrary inputs every CONFIRMED entry of a named grant rests on a token proven for it and for a target known independently |
| ReconcileAll.GitConfirmed | demo/src/reconcile.js:401-465 | A confirmed git entry's token is proven for the ref whose reflog shows the move |
| ReconcileAll.PgConfirmed | demo/src/reconcile.js:482-588 | A confirmed postgres entry has a sealed row whose exact preimage its proven token carries |
| ReconcileAll.HttpConfirmed | demo/src/reconcile.js:610-711 | A confirmed http entry's token is proven for the path read, which shows the expected ETag |
| PostgresSafety.SafeRun | demo/sql/gate.sql:65-180 | Locks exclude, open claims are unconsumed, and committed rows match history in every reachable state |
| PostgresSafety.NextGrabs | demo/sql/gate.sql:73-128 | No step takes a challenge or a ledger key another open transaction holds |
| PostgresSafety.CommitKeepsTables | demo/sql/seal.sql:108-132 | COMMIT adds one sealed row, its evidence and one history entry and leaves all others alone |
| PostgresRecovery.CommittedMeansSealed | demo/src/atomic.js:179-285 | In every reachable state the rows are exactly the committed transactions, one mutation and one challenge each, sealed, with a stored token over that row's preimage; refusals other than SEAL_FAILED committed nothing, and a SEAL_FAILED call committed exactly when its acknowledgement was lost |
| PostgresRecovery.OnlyCommitWrites | demo/src/atomic.js:179-247 | Only a COMMIT step changes grants and evidence, by one row and its token; no other step of a call changes any table |
| PostgresRecovery.StoredTokenVerdict | demo/src/reconcile.js:555-577 | A stored token passes the gate for its row's target exactly when jti and deployment hold no delimiter |
| PostgresRecovery.PostgresRecoveryIsExact | demo/src/reconcile.js:482-588 | On every reachable state: CONFIRMED for exactly the committed delimiter-free grants, REJECTED for uncommitted ones, INDETERMINATE only for a '|' inside a committed id or deployment |
| PostgresRecovery.BindingFields | demo/src/atomic.js:94-108 | The signed jti and deployment read back exactly when neither holds the delimiter |
| PostgresDrift.DeployRemovesChallengedIff | demo/sql/gate.sql:94-158 | Over every run a committed deploy removed the row as last written between check and write: the challenged content if and only if nothing or the same content was written there in between, and nothing exactly when no row was left |
| PostgresDigest.DigestsEqualIff | demo/sql/gate.sql:94-100 | Two contents of a row have equal digests exactly when their epochs and their joined titles and bodies are equal |
| PostgresDigest.DigestPinsIff | demo/sql/gate.sql:94-100 | A digest is that of no other state of the row, absence included, if and only if neither title nor body holds a colon |
| PostgresRuns.CheckedRowMayChange | demo/sql/gate.sql:94-158 | For any two contents there is a run in which the check passed on the first and the deploy deletes the second and returns success |
| PostgresRuns.EmptyDeploySucceeds | demo/sql/gate.sql:137-149 | A run in which two grants deploy the same article and the second returns success over an empty mutation |
| PostgresRuns.LostAckIsSealFailed | demo/src/atomic.js:251-283 | A run in which a lost acknowledgement makes the call answer SEAL_FAILED over committed tables, and the reader confirms |
| PostgresExecutor.Database.Consume | demo/sql/gate.sql:73-135 | Challenge checks, then the ledger row; success means the key was free |
| PostgresExecutor.Database.WriteArticle | demo/sql/gate.sql:137-149 | publish inserts under a fresh id, deploy deletes the target row if present, anything else is refused |
| PostgresExecutor.Database.MutateTarget | demo/sql/gate.sql:137-175 | The view gains the mutation, the spent challenge and the unsealed row with its preimage |
| PostgresExecutor.SealBindsPreimage | demo/sql/seal.sql:28-102 | Presenting the hash of p seals a row only if its preimage is p, and a sealed row is never sealed again |
| PostgresExecutor.StoredTokenCarriesRow | demo/sql/seal.sql:163-252 | A stored token verifies, under whatever key, only as its row's own preimage and signature, and is the row's only one |
| PostgresExecutor.KidlessTokenIsStored | demo/sql/seal.sql:209-216 | A token with an empty kid can be stored for any sealed row, and no verifier accepts it |
| PostgresExecutor.Database.BeginAndGate | demo/src/atomic.js:147-222 | Refusals before and inside the gate, or a view holding the gate's whole effect |
| PostgresExecutor.Database.SealAndCommit | demo/src/atomic.js:224-251 | Everything is published exactly when seal and evidence write are accepted; the answer is success unless the acknowledgement is lost |
| PostgresExecutor.Database.AtomicExecute | demo/src/atomic.js:138-286 | Either nothing changed or row, evidence, mutation and spent challenge of a grant without a row were published together; the latter only under success, or SEAL_FAILED with a lost acknowledgement |
| HttpSafety.AtMostOneLands | demo/src/http-atomic.js:519-568 | At most one write lands per pin and path, applied to exactly the pinned representation |
| HttpSafety.AtMostOneOk | demo/src/http-atomic.js:395-652 | If two calls with the same pin return ok, one of them wrote nothing and repeats a request of another call that did, or of another user agent |
| HttpReplay.OnePerPinIff | demo/src/http-atomic.js:519-568 | For any calls, at most one returns ok per pin in every run if and only if no call that shares its pin can be taken for a repeat of another or of what another user agent may ask for |
| HttpReplay.SharedRepeatSpendsTwice | demo/src/http-atomic.js:528-542 | For any such calls there is a run in which two return ok on one pin |
| HttpReplay.TwinReturnsOk | demo/src/http-atomic.js:528-542 | A run in which two related requests on one pin both return ok over one write |
| HttpReplay.StrangerReturnsOk | demo/src/http-atomic.js:519-568 | A run in which two calls return ok on one pin, the second for a change another user agent made |
| HttpReplay.NoReplayIsOnePerPin | demo/src/http-atomic.js:528-542 | An origin that does not replay gives one ok per pin, and is accused only over a future ETag |
| HttpReplay.KeysDecide | demo/src/http-atomic.js:528-542 | Against an origin with idempotency keys, where nobody else uses these grants' ids as keys, one ok per pin exactly where no call that shares its pin has its grant in another call on that path |
| HttpReplay.ChangesDecide | demo/src/http-atomic.js:519-527 | Against an origin that recognises a change already made, whoever made it, one ok per pin exactly where no two calls share a pin |
| HttpSafety.NotHonoredMeansFuturePin | demo/src/http-atomic.js:568-593 | IF_MATCH_NOT_HONORED against an honouring origin means the pin was a later ETag than the one observed, or the call wrote nothing and repeats a request of another call or user agent |
| HttpReplay.AccusedRightlyIff | demo/src/http-atomic.js:568-593 | For any calls, the accusation is made only over a future ETag in every run if and only if no call pinned to an ETag can be taken for a repeat of another call or of what another user agent may ask for |
| HttpReplay.RetryAccuses | demo/src/http-atomic.js:568-593 | A run in which a retry of an answered request accuses the origin over a past pin, having written nothing |
| HttpSafety.CanaryIsSound | demo/src/http-atomic.js:259-327 | HONORS needs a strong-enough observation and a 412; DOES_NOT_HONOR never hits an origin that evaluates If-Match on GET unless a stale literal became current |
| HttpSafety.HttpRecoveryIsExact | demo/src/reconcile.js:610-711 | For every landed write and every call it stands for, returned, crashed, unanswered or replayed: CONFIRMED or INDETERMINATE (token kept or not) while it is current and shown, afterwards INDETERMINATE or REJECTED |
| HttpSafety.LandedIsRejectedIff | demo/src/reconcile.js:649-668 | A landed write is called REJECTED exactly when no token was kept and a later ETag, or none, is shown |
| HttpSafety.LandedWriteIsRejected | demo/src/reconcile.js:649-668 | A run in which a write whose reply was lost, or whose call crashed, is overwritten and then called REJECTED |
| HttpSafety.SafeRun | demo/src/http-atomic.js:395-652 | The history and observation invariant holds over every run, repeated requests answered with their first result included |
| HttpExecutor.Remote.StartCall | demo/src/http-atomic.js:399-462 | The refusals before the observation, the canary gate included |
| HttpExecutor.Remote.ObserveCall | demo/src/http-atomic.js:464-516 | Either a refusal or the ETag that will be compared after the write |
| HttpExecutor.Remote.WriteCall | demo/src/http-atomic.js:519-593 | One conditional write and what its answer decides |
| HttpExecutor.Remote.HttpAtomicExecute | demo/src/http-atomic.js:395-652 | Success means the call's own write is in the history right after the representation it was pinned to, or one of a request it repeats is there, whatever others wrote meanwhile |
| JsonCanon.CanonicalJsonIsExact | packages/verifier-core/evidence-root.js:69-81 | Two values have the same canonical text exactly when they are equal with objects as unordered maps and -0 as 0 |
| JsonCanon.CanonDecodes | packages/verifier-core/evidence-root.js:69-81 | Prefix lemma: inside larger text a canonical value can be cut out in one way only |
| JsonCanon.TextDeterminesValue | packages/verifier-core/evidence-root.js:69-81 | Equal texts mean equal values |
| JsonCanon.ValueDeterminesText | packages/verifier-core/evidence-root.js:69-81 | Equal values have equal texts, whatever the insertion order |
| JsonTokens.NumTextInjective | packages/verifier-core/evidence-root.js:73-76 | Two finite numbers print alike only if equal, or both zero |
| JsonTokens.QuoteDecodes | packages/verifier-core/evidence-root.js:72 | A quoted string is read back together with what follows it |
| JsonTokens.ListDecodes | packages/verifier-core/evidence-root.js:78-80 | A closed comma-separated list of decodable parts gives all parts back |
| Sorting.SortForgetsOrder | packages/verifier-core/evidence-root.js:79 | Sorting by distinct keys depends only on which elements there are |
| EvidenceRoot.DigestBinds | packages/verifier-core/evidence-root.js:99-103 | Equal digests mean the same token, up to member order and up to a string that is a value's canonical JSON |
| EvidenceRoot.DigestAll | packages/verifier-core/evidence-root.js:119-123 | The digest loop gives each slot its token's digest and fails exactly where a token cannot be printed |
| EvidenceRoot.BuildEvidenceRoot | packages/verifier-core/evidence-root.js:119-149 | The signed root of the run's body |
| EvidenceRoot.RootIsSomeRun | packages/verifier-core/evidence-root.js:152-177 | A root that verifies is, member order aside, the body of a run the key signed |
| EvidenceBinding.NoteMandatory | packages/verifier-core/verify-evidence.js:301-306 | The loop over mandatory slots records one check each |
| EvidenceBinding.NoteDigests | packages/verifier-core/verify-evidence.js:308-331 | The loop over slots records the digest checks, and throws where a token cannot be printed |
| EvidenceBinding.VerifyEvidenceRootBinding | packages/verifier-core/verify-evidence.js:263-397 | The verdict and every check, in order |
| EvidenceCollage.NoCollage | packages/verifier-core/verify-evidence.js:263-397 | An accepted artifact is one run's: the root, every mandatory token, every carried optional one, and all outer claims down to policy hash, receipt, identities and transcript |
| EvidenceCollage.AcceptedIffOneRun | packages/verifier-core/verify-evidence.js:263-397 | Accepted if and only if its root verifies and the artifact is, in tokens and in every outer claim, that of one run the key signed |
| EvidenceCollage.HonestArtifactPasses | packages/verifier-core/verify-evidence.js:263-397 | A run's own root over its own tokens with agreeing claims is always accepted |
| EvidenceCollage.RootSays | packages/verifier-core/evidence-root.js:119-149 | A verified root's members are the run's, digests included |
| EvidenceCollage.BuiltRootVerifies | packages/verifier-core/evidence-root.js:119-177 | A built root verifies under its signer's key |
| Correlation.ValidMeansMade | packages/verifier-core/verify-evidence.js:85-119 | A valid separator-free correlation agrees with one the key made in all four fields |
| Correlation.BoundIffPlain | packages/verifier-core/verify-evidence.js:85-88 | A preimage belongs to one tuple of fields if and only if no field holds the separator |
| Correlation.UnguardedFieldsShift | packages/verifier-core/verify-evidence.js:85-88 | Two correlations with different fields can share a preimage when a field holds the separator |
| GitObserver.ReadChangedPaths | demo/src/git-observer.js:175-187 | The reported names are, in sorted order, one line for each changed path as printed, trimmed, blanks dropped |
| Sorting.SortOrders | demo/src/git-observer.js:181 | What is sorted comes out in order, duplicates included |
| GitObserver.ObserveGitTarget | demo/src/git-observer.js:96-221 | Refuses any input beyond the allowed keys, and otherwise reports ref, previous value, bytes, lineage and changes as they are |
| Transition.Note | demo/src/target-state-transition.js:184-189 | A recorded check fails the grade exactly when it does not hold |
| Transition.GradeStateTransition | demo/src/target-state-transition.js:161-329 | PROVEN exactly when no check that was made failed |
| Transition.NoteMove | demo/src/target-state-transition.js:207-235 | Labels, ref, destination and base |
| Transition.NoteBytes | demo/src/target-state-transition.js:237-250 | Path, bound bytes and preflight bytes |
| Transition.NoteCompany | demo/src/target-state-transition.js:252-316 | Single parent, nothing else moved, read-only observer, executor token |
| Transition.ProvenMeansExactMove | demo/src/target-state-transition.js:207-320 | With everything supplied, any governed path and a commit that has a parent, PROVEN if and only if the tree moved by exactly the authorized bytes from base in one step, labels and token agree, the path is shown as itself or its bytes are as before, and no line of that commit's message reads as a parent |
| Transition.OddPathRefuses | demo/src/git-observer.js:181 | An exact move that changes a path which is not shown as itself (git quotes it, or it has blanks at its ends) is refused |
| Transition.PlainPasses | demo/src/git-observer.js:181 | A path git prints as it is, with nothing to trim, is shown as itself |
| Transition.OwnParentLineRefuses | demo/src/target-state-transition.js:54-59 | An exact move whose own message has a parent line is refused |
| Transition.ParentsDecide | demo/src/target-state-transition.js:54-59 | PROVEN means an exact move for every message if and only if the commit has a parent |
| Transition.NamesDecide | demo/src/git-observer.js:175-187 | For every governed path, PROVEN means an exact move for all commits with a parent and given file names if and only if no other name reads, printed and trimmed, as that path or as nothing |
| Transition.BlendingNameSmuggles | demo/src/git-observer.js:181 | Any such name gives a PROVEN grade over a tree that changed elsewhere |
| Transition.BlankPrefixBlends | demo/src/git-observer.js:181 | The governed path with a blank in front is such a name |
| Transition.MessageForgesParent | demo/src/target-state-transition.js:54-59 | A parentless commit whose message says parent and base is graded PROVEN |
| Transition.ParentsAreTrue | demo/src/target-state-transition.js:54-59 | The parents read are the commit's exactly when no line of its own message reads as one |
| Grant.ReconstructSignedInput | packages/verifier-core/verify-grant.js:137-154 | The loop builds the fixed fields followed by the non-empty optional values |
| Grant.KernelIsExact | packages/verifier-core/verify-grant.js:137-154 | Two guarded payloads share a signing input if and only if the nine fields and the joined optional values agree |
| Grant.KernelWithFreeOptionals | packages/verifier-core/verify-grant.js:335-353 | With delimiter-free optional values that is equality of the sequences of non-empty ones |
| Grant.LoneOptionalHasNoSlot | packages/verifier-core/verify-grant.js:150-152 | A lone optional value signs the same in either slot |
| Grant.UnguardedOptionalSplits | packages/verifier-core/verify-grant.js:349-354 | Two optional values sign the same as one that contains the delimiter |
| Grant.VersionsNeverCollide | packages/verifier-core/verify-grant.js:173-175 | No v1 input equals a v2 input |
| Grant.V2InputIsExact | packages/verifier-core/verify-grant.js:173-175 | v2 inputs are equal exactly when the bodies are, member order aside |
| Grant.AcceptedWasIssued | packages/verifier-core/verify-grant.js:304-410 | A guarded payload whose signature verifies is an issued grant in all nine fields and in its joined optional values |
| Grant.CurrentMeansAuthorized | packages/verifier-core/verify-grant.js:349-461 | GRANT_CURRENT means an issued grant inside its window for the intended audience, operation, target, receipt and payload |
| GrantV2.CurrentMeansAuthorized | packages/verifier-core/verify-grant.js:204-295 | GRANT_CURRENT for version 2 means an issued body, member order aside, inside its window, under a key neither retired nor revoked, carrying every intended value |
| GrantV2.OtherStatusIsIgnored | packages/verifier-core/verify-grant.js:223-232 | Any other key status is graded as none, where version 1 refuses it |
| Grant.ScopeHashBinds | packages/verifier-core/verify-grant.js:177-184 | A scope hash determines operation, target and payload when the first two hold no separator |
| Grant.CanonicalTargetIsFixed | packages/verifier-core/verify-grant.js:160-171 | A canonical target is its own canonical form |
| Receipt.LayoutsAreDistinct | packages/verifier-core/verify.js:106-112 | Guarded receipts share signed bytes exactly when layout and signed fields agree |
| Receipt.UnguardedDowngrade | packages/verifier-core/verify.js:289-293 | Without the guard a version 2 receipt reads as a version 1 receipt |
| Receipt.ValidReceiptWasIssued | packages/verifier-core/verify.js:168-320 | A valid receipt is an issued one, under a key that is neither revoked nor retired at issue nor of unknown status |
| Receipt.VerifyChain | packages/verifier-core/verify.js:326-356 | Valid exactly when every receipt is valid and every later one names the bytes before it; every link reported |
| Receipt.ChainsAreRigid | packages/verifier-core/verify.js:326-356 | Two accepted chains from genesis with the same last token are identical |
| Checkpoint.Normalize | demo/src/git-atomic.js:283-293 | Entries pass exactly when all are well formed with distinct hashes |
| Checkpoint.CheckpointManifest | demo/src/git-atomic.js:273-328 | Accepted exactly for admissible entries and delimiter-free fields, with the sorted, sealed manifest |
| Checkpoint.OrderIsForgotten | demo/src/git-atomic.js:294-300 | The order of entries changes neither acceptance nor a byte |
| Checkpoint.SigningInputDecodes | demo/src/git-atomic.js:307-315 | The signing input gives back time, parent, entries and kid |
| Checkpoint.HeadDeterminesHistory | demo/src/git-atomic.js:277-279 | Two parent-linked chains from genesis with the same head digest are identical, length included |
| Posture.WalkDiff | demo/src/posture.js:379-395 | Pushing into the shared list appends exactly the walk's entries |
| Posture.DiffFacts | demo/src/posture.js:449-461 | An unreadable catalogue is one drift; otherwise the walk from the root |
| Posture.WalkIsSound | demo/src/posture.js:379-395 | Every entry is a place of the baseline that disagrees while all places above it agree |
| Posture.WalkIsComplete | demo/src/posture.js:379-395 | Every such place has its entry |
| Posture.EmptyMeansAgreement | demo/src/posture.js:449-461 | The diff is empty exactly when the live side agrees at every place of the baseline |
| Posture.ArraysAgreeIff | demo/src/posture.js:392-394 | Arrays of comma-free strings agree exactly when equal, or both are without text |
| Posture.CommaHidesElements | demo/src/posture.js:392-394 | An element with a comma agrees with two elements, and with the bare text |
| Posture.WalkIsDistinct | demo/src/posture.js:379-395 | No two entries name the same path |
| Posture.PathTextsDistinct | demo/src/posture.js:388 | Printed paths of a baseline with dot-free keys name places unambiguously |
| Posture.OutsideNeverMatters | demo/src/posture.js:385-387 | Facts outside the baseline never change where drift is reported |
| Bundle.AssembleBundle | demo/bundle.js:158-223 | The bundle holds exactly the supplied tokens of verifiable slots, with every other slot listed absent |
| Bundle.FillSlots | demo/bundle.js:170-196 | The same over any slot table with distinct keys |
| Bundle.VerifyBundle | packages/verifier-core/verify-bundle.js:214-360 | The two rejections, or the graded report |
| Bundle.GradeSlots | packages/verifier-core/verify-bundle.js:244-317 | One result per slot, and exact counts |
| Bundle.SlotTablesAgree | demo/bundle.js:48-117 | The two slot tables name the same slots, verifiable exactly where there is a verifier |
| Bundle.NeverGreenEmpty | packages/verifier-core/verify-bundle.js:178-190 | The guard never fires, whatever the bundle and the verifiers |
| Bundle.AssemblerAndVerifierAgree | demo/bundle.js:158-223 | An assembled bundle is never rejected, has no slot without verifier, and its counts match the manifest |
| Bundle.VerifiedMeans | packages/verifier-core/verify-bundle.js:319-357 | VERIFIED exactly when some slot is filled, every filled slot verifies, and the grant binds the receipt |
| GovernedContract.CanonicalIsNormalForm | demo/src/governed-contract.js:43-51 | Normalisation is idempotent and ends in exactly one newline |
| GovernedContract.CarriageReturnsNeverMatter | demo/src/governed-contract.js:49 | Carriage returns may be inserted anywhere |
| GovernedContract.BlanksAtLineEndsNeverMatter | demo/src/governed-contract.js:50 | Blanks may be inserted at line ends |

## Left out

- Processes, sockets, files, clocks, randomness: their results are parameters (`Tick`, replies, dates already parsed, tokens already decoded).
- Details of git: the order in which reflog lines print (the model lists oldest first), collapsing of inner white space in reflog messages, symbolic refs (HEAD's reflog also gets the marker when its branch moves, so the recovery theorems speak of refs that are not symbolic), directory/file name conflicts, ref names with white space in the batch text, a repository writer who bypasses receive-pack.
- GitSafety.DriftMeansUnspent: speaks of runs in which no call is aimed at the ledger namespace; an overwritten claim says nothing of one call's answer.
- GitRecoveryExact.RecoveryIsComplete: grant ids that end in white space, of which GitMarkers.MarkersTell speaks.
- ReconcileAll.NoConfirmedWithoutProof: an empty expected target (an item with an empty path) skips the target comparison, as the code does.
- PostgresRecovery.CommittedMeansSealed: ids drawn from the article sequence are not tables and move on when a transaction rolls back.
- HttpSafety.AtMostOneLands: an origin that ignores preconditions, deletes or reuses ETags gives no such guarantee and is outside the hypotheses.
- HttpReplay.KeysDecide: idempotency keys that expire, or that collapse requests to different resources.
- JsonCanon.CanonicalJsonIsExact: lone surrogates in strings, values other than the JSON kinds, and the choice of shortest digits for a double; a number is its sign, digits and exponent as ECMA-262 selects them.
- EvidenceCollage.NoCollage: speaks of the carried tokens; a caller who overrides a mandatory slot with a sidecar learns about that sidecar.
- The evidence envelope (packages/verifier-core/verify-evidence.js:157-231): one verifier call per slot, easy members.
- GitObserver.ReadChangedPaths: file modes and submodules; how git spells an unusual path between its quotes is a parameter.
- Posture.DiffFacts: reading the catalogue and naming drifts (demo/src/posture.js:283-447); the printed dot path is modelled as the list of keys.
- Grant.CurrentMeansAuthorized: the reason strings that tell retired, revoked and unknown keys apart, and the command line.
- GrantV2.CurrentMeansAuthorized: decoding of the token and lookup of its key by kid, which are parameters.
- Receipt.LayoutsAreDistinct: numbers for v other than integers; missing string fields, which the code prints as the word undefined.
- Bundle.VerifyBundle: the reasons and notes attached to slots, per-slot option merging, and the provider readback's field checks.
- Metrics, deny remedies, posture receipts, verified execution binding, authorization continuity, transcripts, toolsets, command lines and orchestration.
- GitDrift.PrecheckIsRightIff: consumeOnce's input checks (demo/src/adapter-spi.js).
