/** The Postgres and HTTP readers, the last-line downgrade, and the unified entry point with its roll-up. */
module ReconcileAll {
  import opened Text
  import opened Crypto
  import opened Clock
  import opened GitStore
  import opened PgTables
  import opened Reconcile
  import Attestation

  // ---------------------------------------------------------------- postgres

  function PreimageDivergence(signed: string, ledger: string): Status {
    var a, b := Split(signed, '|'), Split(ledger, '|');
    if |a| != |b| || |a| < 5 then PreimageMismatch
    else if a[4] != b[4] then TargetMismatch
    else if a[3] != b[3] then DigestMismatch
    else PreimageMismatch
  }

  function PgDoubt(jti: string, row: GrantRow, status: Status): Entry {
    Entry(Postgres, Some(jti), Indeterminate, "", Some(status), Some(row.status))
  }

  function PgEntryOf(c: Crypto, tables: Tables, jti: string, t: Trust): Entry {
    var key := (t.deployment, jti);
    if key !in tables.grants then Entry(Postgres, Some(jti), Rejected, "", None, None)
    else
      var row := tables.grants[key];
      var token := FirstToken(tables.evidence, key);
      if token.None? || token.value == "" then PgDoubt(jti, row, AttestAbsent)
      else if row.preimage.None? || row.preimage.value == "" then PgDoubt(jti, row, LedgerPreimageAbsent)
      else BoundEntry(c, jti, row, row.preimage.value, token.value, t)
  }

  function BoundEntry(c: Crypto, jti: string, row: GrantRow, preimage: string, token: string, t: Trust): Entry {
    var seg := Split(token, '|');
    if |seg| != 4 then PgDoubt(jti, row, PreimageMismatch)
    else if c.unb64(seg[2]) != preimage then PgDoubt(jti, row, PreimageDivergence(c.unb64(seg[2]), preimage))
    else
      var fields := Split(preimage, '|');
      var v := VerifyStored(c, TokenText(token), jti, t.deployment, t.keys, t.asOf,
                            if |fields| >= 5 then Some(Exact(fields[4])) else None);
      if v.Doubt? then PgDoubt(jti, row, v.status)
      else Entry(Postgres, Some(jti), Confirmed, "", Some(AttestValid), Some(row.status))
  }

  /** The two independent checks of a row that has both a preimage and a token. */
  method BindRow(c: Crypto, jti: string, row: GrantRow, preimage: string, token: string, t: Trust) returns (e: Entry)
    ensures e == BoundEntry(c, jti, row, preimage, token, t)
  {
    var seg := Split(token, '|');
    if |seg| != 4 { return PgDoubt(jti, row, PreimageMismatch); }
    var signed := c.unb64(seg[2]);
    if signed != preimage { return PgDoubt(jti, row, PreimageDivergence(signed, preimage)); }
    var fields := Split(preimage, '|');
    var expected := None;
    if |fields| >= 5 { expected := Some(Exact(fields[4])); }
    var v := VerifyStored(c, TokenText(token), jti, t.deployment, t.keys, t.asOf, expected);
    if v.Doubt? { return PgDoubt(jti, row, v.status); }
    e := Entry(Postgres, Some(jti), Confirmed, "", Some(AttestValid), Some(row.status));
  }

  method ReconcilePostgres(c: Crypto, tables: Tables, jtis: seq<string>, t: Trust) returns (out: seq<Entry>)
    ensures |out| == |jtis| && forall k :: 0 <= k < |jtis| ==> out[k] == PgEntryOf(c, tables, jtis[k], t)
  {
    out := [];
    for i := 0 to |jtis|
      invariant |out| == i && forall k :: 0 <= k < i ==> out[k] == PgEntryOf(c, tables, jtis[k], t)
    {
      var jti := jtis[i];
      var key := (t.deployment, jti);
      var e;
      if key !in tables.grants {
        e := Entry(Postgres, Some(jti), Rejected, "", None, None);
      } else {
        var row := tables.grants[key];
        var token := FirstToken(tables.evidence, key);
        if token.None? || token.value == "" {
          e := PgDoubt(jti, row, AttestAbsent);
        } else if row.preimage.None? || row.preimage.value == "" {
          e := PgDoubt(jti, row, LedgerPreimageAbsent);
        } else {
          e := BindRow(c, jti, row, row.preimage.value, token.value, t);
        }
      }
      out := out + [e];
    }
  }

  // ---------------------------------------------------------------- http

  datatype HttpItem = HttpItem(jti: string, resourcePath: string, expectedEtag: string, attestation: Option<Stored>)

  /** What the origin answered when the resource was read. */
  datatype Observation = Unreadable | Readable(etag: Option<string>)

  function HttpEntry(it: HttpItem, outcome: Outcome, status: Option<Status>): Entry {
    Entry(Http, Some(it.jti), outcome, it.resourcePath, status, None)
  }

  function HttpEntryOf(c: Crypto, it: HttpItem, obs: Observation, t: Trust): Entry {
    if obs.Unreadable? then HttpEntry(it, Indeterminate, Some(OriginUnreadable))
    else if it.expectedEtag == "" then HttpEntry(it, Indeterminate, Some(NoExpectedRepresentation))
    else if obs.etag != Some(it.expectedEtag) then
      if Truthy(it.attestation) then HttpEntry(it, Indeterminate, Some(OriginContradicts))
      else HttpEntry(it, Rejected, None)
    else if !Truthy(it.attestation) then HttpEntry(it, Indeterminate, Some(AttestAbsent))
    else
      var v := VerifyStored(c, it.attestation.value, it.jti, t.deployment, t.keys, t.asOf, Some(Exact(it.resourcePath)));
      if v.Doubt? then HttpEntry(it, Indeterminate, Some(v.status))
      else HttpEntry(it, Confirmed, Some(AttestValid))
  }

  method ReconcileHttp(c: Crypto, items: seq<HttpItem>, answers: seq<Observation>, t: Trust) returns (out: seq<Entry>)
    requires |answers| == |items|
    ensures |out| == |items| && forall k :: 0 <= k < |items| ==> out[k] == HttpEntryOf(c, items[k], answers[k], t)
  {
    out := [];
    for i := 0 to |items|
      invariant |out| == i && forall k :: 0 <= k < i ==> out[k] == HttpEntryOf(c, items[k], answers[k], t)
    {
      var it, obs := items[i], answers[i];
      var e;
      if obs.Unreadable? {
        e := HttpEntry(it, Indeterminate, Some(OriginUnreadable));
      } else if it.expectedEtag == "" {
        e := HttpEntry(it, Indeterminate, Some(NoExpectedRepresentation));
      } else if obs.etag != Some(it.expectedEtag) {
        if Truthy(it.attestation) {
          e := HttpEntry(it, Indeterminate, Some(OriginContradicts));
        } else {
          e := HttpEntry(it, Rejected, None);
        }
      } else if !Truthy(it.attestation) {
        e := HttpEntry(it, Indeterminate, Some(AttestAbsent));
      } else {
        var v := VerifyStored(c, it.attestation.value, it.jti, t.deployment, t.keys, t.asOf, Some(Exact(it.resourcePath)));
        if v.Doubt? {
          e := HttpEntry(it, Indeterminate, Some(v.status));
        } else {
          e := HttpEntry(it, Confirmed, Some(AttestValid));
        }
      }
      out := out + [e];
    }
  }

  // ---------------------------------------------------------------- the unified entry point

  /** A CONFIRMED without a verified signature, or failing the adapter's own check, is downgraded. */
  function Enforce(e: Entry, backed: bool): Entry {
    if e.outcome == Confirmed && !(e.status == Some(AttestValid) && backed) then e.(outcome := Indeterminate) else e
  }

  datatype GitSource = GitSource(repo: Repo, refs: seq<string>, answers: Reads, atts: Attestations, trust: Trust)
  function ReadRefs(g: GitSource): seq<string> { AnsweredRefs(g.refs, g.answers.reflogs) }

  datatype PgSource = PgSource(tables: Tables, jtis: seq<string>, trust: Trust)
  datatype HttpSource = HttpSource(items: seq<HttpItem>, answers: seq<Observation>, trust: Trust)

  predicate GitBacked(s: GitSource, e: Entry) { e.jti.Some? && Truthy(Lookup(s.atts, e.jti.value)) }

  predicate PgBacked(e: Entry) { e.rowStatus == Some("sealed") }

  /** `new Map(items.map(i => [i.jti, i])).get(jti)`: the last item of that grant. */
  function ItemOf(items: seq<HttpItem>, jti: string): Option<HttpItem> {
    if items == [] then None
    else if items[|items| - 1].jti == jti then Some(items[|items| - 1])
    else ItemOf(items[..|items| - 1], jti)
  }

  predicate HttpBacked(s: HttpSource, e: Entry) {
    e.jti.Some? && var it := ItemOf(s.items, e.jti.value); it.Some? && Truthy(it.value.attestation)
  }

  function Rank(o: Outcome): nat {
    match o case Indeterminate => 0 case Released => 1 case Rejected => 2 case Confirmed => 3
  }

  function Count(es: seq<Entry>, o: Outcome): nat {
    if es == [] then 0 else Count(es[..|es| - 1], o) + (if es[|es| - 1].outcome == o then 1 else 0)
  }

  lemma {:induction false} CountPositive(es: seq<Entry>, o: Outcome)
    ensures Count(es, o) > 0 <==> exists k :: 0 <= k < |es| && es[k].outcome == o
  {
    if es != [] {
      var init := es[..|es| - 1];
      CountPositive(init, o);
      if k :| 0 <= k < |init| && init[k].outcome == o { assert es[k].outcome == o; }
      if k :| 0 <= k < |es| && es[k].outcome == o && k < |init| { assert init[k].outcome == o; }
    }
  }

  datatype Report = Report(
    grants: seq<Entry>,
    indeterminate: nat,
    released: nat,
    rejected: nat,
    confirmed: nat,
    outcome: Option<Outcome>,
    needsAttention: nat)

  /** Every entry left standing by Enforce, in adapter order. */
  method ReconcileAdapters(c: Crypto, git: Option<GitSource>, pg: Option<PgSource>, http: Option<HttpSource>)
    returns (r: Report, ledger: seq<LedgerEntry>)
    requires http.Some? ==> |http.value.answers| == |http.value.items|
    ensures git.Some? ==> ReadsAsLedger(git.value.repo, git.value.answers.ledger, ledger)
    ensures r.grants == GitPart(c, git, ledger) + PgPart(c, pg) + HttpPart(c, http)
    ensures r.indeterminate + r.released + r.rejected + r.confirmed == |r.grants|
    ensures r.indeterminate == Count(r.grants, Indeterminate) && r.released == Count(r.grants, Released)
    ensures r.rejected == Count(r.grants, Rejected) && r.confirmed == Count(r.grants, Confirmed)
    ensures r.outcome.None? <==> r.grants == []
    ensures r.outcome.Some? ==>
              (exists k :: 0 <= k < |r.grants| && r.grants[k].outcome == r.outcome.value)
              && (forall k :: 0 <= k < |r.grants| ==> Rank(r.outcome.value) <= Rank(r.grants[k].outcome))
    ensures r.needsAttention == |r.grants| - r.confirmed
  {
    var fromGit, fromPg, fromHttp;
    fromGit, ledger := GitAdapter(c, git);
    fromPg := PgAdapter(c, pg);
    fromHttp := HttpAdapter(c, http);
    r := RollUp(fromGit + fromPg + fromHttp);
  }

  method GitAdapter(c: Crypto, git: Option<GitSource>) returns (out: seq<Entry>, ledger: seq<LedgerEntry>)
    ensures git.Some? ==> ReadsAsLedger(git.value.repo, git.value.answers.ledger, ledger)
    ensures out == GitPart(c, git, ledger)
  {
    out, ledger := [], [];
    if git.Some? {
      out, ledger := ReconcileGit(c, git.value.repo, git.value.refs, git.value.atts, git.value.trust, git.value.answers);
      out := Map(out, (e: Entry) => Enforce(e, GitBacked(git.value, e)));
    }
  }

  method PgAdapter(c: Crypto, pg: Option<PgSource>) returns (out: seq<Entry>)
    ensures out == PgPart(c, pg)
  {
    out := [];
    if pg.Some? {
      out := ReconcilePostgres(c, pg.value.tables, pg.value.jtis, pg.value.trust);
      out := Map(out, (e: Entry) => Enforce(e, PgBacked(e)));
    }
  }

  method HttpAdapter(c: Crypto, http: Option<HttpSource>) returns (out: seq<Entry>)
    requires http.Some? ==> |http.value.answers| == |http.value.items|
    ensures out == HttpPart(c, http)
  {
    out := [];
    if http.Some? {
      out := ReconcileHttp(c, http.value.items, http.value.answers, http.value.trust);
      out := Map(out, (e: Entry) => Enforce(e, HttpBacked(http.value, e)));
    }
  }

  method RollUp(grants: seq<Entry>) returns (r: Report)
    ensures r.grants == grants
    ensures r.indeterminate + r.released + r.rejected + r.confirmed == |grants|
    ensures r.indeterminate == Count(grants, Indeterminate) && r.released == Count(grants, Released)
    ensures r.rejected == Count(grants, Rejected) && r.confirmed == Count(grants, Confirmed)
    ensures r.outcome.None? <==> grants == []
    ensures r.outcome.Some? ==>
              (exists k :: 0 <= k < |grants| && grants[k].outcome == r.outcome.value)
              && (forall k :: 0 <= k < |grants| ==> Rank(r.outcome.value) <= Rank(grants[k].outcome))
    ensures r.needsAttention == |grants| - r.confirmed
  {
    var ind, rel, rej, con := 0, 0, 0, 0;
    for i := 0 to |grants|
      invariant ind + rel + rej + con == i
      invariant ind == Count(grants[..i], Indeterminate) && rel == Count(grants[..i], Released)
      invariant rej == Count(grants[..i], Rejected) && con == Count(grants[..i], Confirmed)
    {
      assert grants[..i + 1][..i] == grants[..i];
      match grants[i].outcome
      case Indeterminate => ind := ind + 1;
      case Released => rel := rel + 1;
      case Rejected => rej := rej + 1;
      case Confirmed => con := con + 1;
    }
    assert grants[..|grants|] == grants;
    CountPositive(grants, Indeterminate);
    CountPositive(grants, Released);
    CountPositive(grants, Rejected);
    CountPositive(grants, Confirmed);
    var worst := if ind > 0 then Some(Indeterminate) else if rel > 0 then Some(Released)
                 else if rej > 0 then Some(Rejected) else if con > 0 then Some(Confirmed) else None;
    r := Report(grants, ind, rel, rej, con, worst, |grants| - con);
  }

  function GitPart(c: Crypto, git: Option<GitSource>, ledger: seq<LedgerEntry>): seq<Entry> {
    if git.None? then []
    else
      var g := git.value;
      var out := GitEntries(c, LedgerReportOf(c, ledger, MovesIn(g.repo, ReadRefs(g)), g.atts), g.atts, g.trust);
      seq(|out|, k requires 0 <= k < |out| => Enforce(out[k], GitBacked(g, out[k])))
  }

  function PgPart(c: Crypto, pg: Option<PgSource>): seq<Entry> {
    if pg.None? then []
    else
      var p := pg.value;
      seq(|p.jtis|, k requires 0 <= k < |p.jtis| =>
        var e := PgEntryOf(c, p.tables, p.jtis[k], p.trust); Enforce(e, PgBacked(e)))
  }

  function HttpPart(c: Crypto, http: Option<HttpSource>): seq<Entry>
    requires http.Some? ==> |http.value.answers| == |http.value.items|
  {
    if http.None? then []
    else
      var h := http.value;
      seq(|h.items|, k requires 0 <= k < |h.items| =>
        var e := HttpEntryOf(c, h.items[k], h.answers[k], h.trust); Enforce(e, HttpBacked(h, e)))
  }

  // ---------------------------------------------------------------- no CONFIRMED without proof

  /** token verifies, under some in-force key of the manifest, as evidence for this grant and target. */
  ghost predicate HasProof(c: Crypto, token: string, jti: string, t: Trust, expected: Option<Expected>) {
    t.keys.Some? && exists e :: e in t.keys.value && ProvenBy(c, token, e, jti, t.deployment, t.asOf, expected)
  }

  /** git: the token filed under this grant, proven for the ref whose reflog shows the move. */
  ghost predicate GitJustified(c: Crypto, g: GitSource, e: Entry) {
    && e.adapter == Git && e.jti.Some?
    && e.jti.value in g.atts && g.atts[e.jti.value].TokenText?
    && RefMove(e.about, e.jti.value) in MovesIn(g.repo, ReadRefs(g))
    && HasProof(c, g.atts[e.jti.value].token, e.jti.value, g.trust, Some(GitRef(e.about)))
  }

  /** postgres: the stored token, proven, carrying the sealed row's exact preimage. */
  ghost predicate PgJustified(c: Crypto, p: PgSource, e: Entry) {
    && e.adapter == Postgres && e.jti.Some?
    && var key := (p.trust.deployment, e.jti.value);
    && key in p.tables.grants && p.tables.grants[key].status == "sealed"
    && var token := FirstToken(p.tables.evidence, key);
    && token.Some? && |Split(token.value, '|')| == 4
    && p.tables.grants[key].preimage == Some(c.unb64(Split(token.value, '|')[2]))
    && HasProof(c, token.value, e.jti.value, p.trust, None)
  }

  /** http: the item's token, proven for the path that was read, which shows the expected ETag. */
  ghost predicate HttpJustified(c: Crypto, it: HttpItem, answer: Observation, t: Trust, e: Entry) {
    && e.adapter == Http && e.jti == Some(it.jti) && it.resourcePath == e.about
    && it.expectedEtag != "" && answer == Readable(Some(it.expectedEtag))
    && it.attestation.Some? && it.attestation.value.TokenText?
    && HasProof(c, it.attestation.value.token, it.jti, t, Some(Exact(e.about)))
  }

  ghost predicate HttpSourceJustified(c: Crypto, h: HttpSource, e: Entry)
    requires |h.answers| == |h.items|
  {
    exists k :: 0 <= k < |h.items| && HttpJustified(c, h.items[k], h.answers[k], h.trust, e)
  }

  /** The evidence an entry of each adapter must rest on, all of it independent of the token. */
  ghost predicate Justified(c: Crypto, git: Option<GitSource>, pg: Option<PgSource>, http: Option<HttpSource>, e: Entry)
    requires http.Some? ==> |http.value.answers| == |http.value.items|
  {
    || (git.Some? && GitJustified(c, git.value, e))
    || (pg.Some? && PgJustified(c, pg.value, e))
    || (http.Some? && HttpSourceJustified(c, http.value, e))
  }

  lemma ProofWithoutTarget(c: Crypto, token: string, jti: string, t: Trust, expected: Option<Expected>)
    requires HasProof(c, token, jti, t, expected)
    ensures HasProof(c, token, jti, t, None)
  {
    var e :| e in t.keys.value && ProvenBy(c, token, e, jti, t.deployment, t.asOf, expected);
    assert ProvenBy(c, token, e, jti, t.deployment, t.asOf, None);
  }

  /** Only an entry about a reported move, with a proven token, comes out of the git reader confirmed. */
  lemma GitEntryConfirmed(c: Crypto, g: GitSource, report: LedgerReport, k: nat)
    requires k < |GitEntries(c, report, g.atts, g.trust)| && GitEntries(c, report, g.atts, g.trust)[k].outcome == Confirmed
    ensures k < |report.moves|
    ensures var mv := report.moves[k];
            && GitEntries(c, report, g.atts, g.trust)[k] == Entry(Git, Some(mv.jti), Confirmed, mv.ref, Some(AttestValid), None)
            && mv.jti in g.atts
            && VerifyStored(c, g.atts[mv.jti], mv.jti, g.trust.deployment, g.trust.keys, g.trust.asOf, Some(GitRef(mv.ref))).Proven?
  {
  }

  lemma GitConfirmed(c: Crypto, git: Option<GitSource>, ledger: seq<LedgerEntry>, e: Entry)
    requires e in GitPart(c, git, ledger) && e.outcome == Confirmed && e.jti != Some("")
    ensures git.Some? && GitJustified(c, git.value, e)
  {
    var g := git.value;
    var report := LedgerReportOf(c, ledger, MovesIn(g.repo, ReadRefs(g)), g.atts);
    var k :| 0 <= k < |GitPart(c, git, ledger)| && GitPart(c, git, ledger)[k] == e;
    GitEntryConfirmed(c, g, report, k);
    var mv := report.moves[k];
    assert mv in MovesIn(g.repo, ReadRefs(g));
    GateIsSound(c, g.atts[mv.jti], mv.jti, g.trust.deployment, g.trust.keys, g.trust.asOf, Some(GitRef(mv.ref)));
  }

  lemma PgConfirmed(c: Crypto, pg: Option<PgSource>, e: Entry)
    requires e in PgPart(c, pg) && e.outcome == Confirmed && e.jti != Some("")
    ensures pg.Some? && PgJustified(c, pg.value, e)
  {
    var p := pg.value;
    var k :| 0 <= k < |PgPart(c, pg)| && PgPart(c, pg)[k] == e;
    var jti := p.jtis[k];
    var row := p.tables.grants[(p.trust.deployment, jti)];
    var token := FirstToken(p.tables.evidence, (p.trust.deployment, jti)).value;
    var fields := Split(row.preimage.value, '|');
    var expected := if |fields| >= 5 then Some(Exact(fields[4])) else None;
    GateIsSound(c, TokenText(token), jti, p.trust.deployment, p.trust.keys, p.trust.asOf, expected);
    ProofWithoutTarget(c, token, jti, p.trust, expected);
  }

  lemma HttpConfirmed(c: Crypto, http: Option<HttpSource>, e: Entry)
    requires http.Some? ==> |http.value.answers| == |http.value.items|
    requires e in HttpPart(c, http) && e.outcome == Confirmed && e.jti != Some("")
    ensures http.Some? && HttpSourceJustified(c, http.value, e)
  {
    var h := http.value;
    var k :| 0 <= k < |HttpPart(c, http)| && HttpPart(c, http)[k] == e;
    var it := h.items[k];
    GateIsSound(c, it.attestation.value, it.jti, h.trust.deployment, h.trust.keys, h.trust.asOf, Some(Exact(it.resourcePath)));
    assert HttpJustified(c, it, h.answers[k], h.trust, e);
  }

  /**
   * NO CONFIRMED WITHOUT PROOF. Whatever refs, tokens, tables, items and origin answers are supplied,
   * an entry that leaves reconcile CONFIRMED for a named grant has a token whose signature verifies
   * under an in-force key of the manifest over bytes naming that grant, that deployment and the target
   * known from elsewhere: the reflog's ref, the sealed row's own preimage, the path that was read.
   */
  lemma NoConfirmedWithoutProof(c: Crypto, git: Option<GitSource>, pg: Option<PgSource>, http: Option<HttpSource>,
                                ledger: seq<LedgerEntry>)
    requires http.Some? ==> |http.value.answers| == |http.value.items|
    ensures forall e: Entry :: e in GitPart(c, git, ledger) + PgPart(c, pg) + HttpPart(c, http) ==>
              (e.outcome == Confirmed && e.jti != Some("") ==> Justified(c, git, pg, http, e))
  {
    var a, b, d := GitPart(c, git, ledger), PgPart(c, pg), HttpPart(c, http);
    forall e: Entry | e in a + b + d && e.outcome == Confirmed && e.jti != Some("")
      ensures Justified(c, git, pg, http, e)
    {
      if e in a {
        GitConfirmed(c, git, ledger, e);
      } else if e in b {
        PgConfirmed(c, pg, e);
      } else {
        HttpConfirmed(c, http, e);
      }
    }
  }
}
