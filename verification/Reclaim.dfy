/** Reclaim eligibility of a consumed-grant ledger entry. */
module Reclaim {
  import opened Text
  import opened Clock

  /** What reclaim is told about the grant; "" stands for an absent outcome or status. */
  datatype GrantMeta = GrantMeta(
    expSigned: Option<bool>,
    signedFields: Option<seq<string>>,
    exp: Date,
    terminal: Option<bool>,
    outcome: string,
    status: string)

  datatype CleanupOpts = CleanupOpts(
    now: int,
    leeway: Option<int>,
    expSigned: Option<bool>,
    terminal: Option<bool>,
    outcome: string,
    status: string)

  datatype Cleanup =
    | Eligible(eligibleAt: int)
    | NotEligible(at: Option<int>, reason: string)

  predicate ExpSignedByFields(g: GrantMeta) {
    g.signedFields.Some? && "exp" in g.signedFields.value
  }

  function SignedExpMs(grant: Option<GrantMeta>, opts: CleanupOpts): Option<int> {
    if grant.None? then None
    else
      var g := grant.value;
      if opts.expSigned == Some(false) || g.expSigned == Some(false) then None
      else if g.signedFields.Some? && "exp" !in g.signedFields.value then None
      else if !(opts.expSigned == Some(true) || g.expSigned == Some(true) || ExpSignedByFields(g)) then None
      else if g.exp.At? then Some(g.exp.ms) else None
  }

  /** The first non-empty of opts.outcome, grant.outcome, opts.status, grant.status. */
  function EntryOutcome(grant: Option<GrantMeta>, opts: CleanupOpts): string {
    if opts.outcome != "" then opts.outcome
    else if grant.Some? && grant.value.outcome != "" then grant.value.outcome
    else if opts.status != "" then opts.status
    else if grant.Some? then grant.value.status else ""
  }

  predicate IsTerminalEntry(grant: Option<GrantMeta>, opts: CleanupOpts) {
    var grantTerminal := if grant.Some? then grant.value.terminal else None;
    if opts.terminal == Some(false) || grantTerminal == Some(false) then false
    else if EntryOutcome(grant, opts) == "INDETERMINATE" then false
    else if opts.terminal == Some(true) || grantTerminal == Some(true) then true
    else EntryOutcome(grant, opts) == "RECONCILED"
  }

  /** A requested leeway may only widen the 30 second pairing. */
  function EffectiveLeeway(requested: Option<int>): int {
    if requested.Some? && requested.value > CLOCK_SKEW_LEEWAY_MS then requested.value else CLOCK_SKEW_LEEWAY_MS
  }

  function CleanupEligibleAt(grant: Option<GrantMeta>, opts: CleanupOpts): Cleanup {
    var leeway := EffectiveLeeway(opts.leeway);
    var expMs := SignedExpMs(grant, opts);
    var eligibleAt := if expMs.None? then None else Some(expMs.value + leeway);
    if !IsTerminalEntry(grant, opts) then NotEligible(eligibleAt, "non_terminal")
    else if expMs.None? then NotEligible(None, "exp_unsigned_or_missing")
    else if !(eligibleAt.value < opts.now) then NotEligible(eligibleAt, "exp_not_elapsed")
    else Eligible(eligibleAt.value)
  }

  /**
   * An eligible entry is terminal, never INDETERMINATE, has an expiry somebody vouched for as
   * signed, and its grant is already refused as expired by a verifier whose clock agrees.
   */
  lemma EligibleMeansDead(grant: Option<GrantMeta>, opts: CleanupOpts)
    requires CleanupEligibleAt(grant, opts).Eligible?
    ensures grant.Some? && grant.value.exp.At? && IsExpiredAt(grant.value.exp.ms, opts.now)
    ensures opts.expSigned == Some(true) || grant.value.expSigned == Some(true) || ExpSignedByFields(grant.value)
    ensures EntryOutcome(grant, opts) != "INDETERMINATE"
    ensures opts.now > grant.value.exp.ms + EffectiveLeeway(opts.leeway)
  {
  }
}
