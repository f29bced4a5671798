/** Checkpoint-compaction manifests: order-free, uniquely decodable, and chained to one history. */
module Checkpoint {
  import opened Text
  import opened Crypto
  import opened GitStore
  import opened Sorting

  const CHECKPOINT_MANIFEST_V := "cr.ledger.checkpoint.v1"

  /** One compacted claim: the consumed ref's hash and the object it pointed at. */
  datatype Entry = Entry(jtiHash: string, priorObject: string)

  datatype Refusal = JtiHashNotSha256 | PriorObjectNotSha | DelimiterInField | DuplicateJtiHash

  datatype Manifest = Manifest(
    compactedAt: string,
    parent: string,
    entries: seq<Entry>,
    kid: Option<string>,
    signingInput: string,
    digest: string)

  datatype Outcome = Refused(why: Refusal) | Accepted(manifest: Manifest)

  predicate IsSha256Hex(s: string) {
    |s| == 64 && forall i :: 0 <= i < |s| ==> HexDigit(LowerChar(s[i]))
  }

  function HashOf(e: Entry): string { e.jtiHash }

  predicate WellFormed(e: Entry) { IsSha256Hex(e.jtiHash) && IsSha(e.priorObject) }

  /** `parent == null || parent === ''` is the genesis mark. */
  function ParentMark(parent: Option<string>): string {
    if parent.None? || parent.value == "" then "-" else parent.value
  }

  function EntryText(e: Entry): string { e.jtiHash + ":" + e.priorObject }

  function Parts(compactedAt: string, parent: string, sorted: seq<Entry>, kid: Option<string>): seq<string> {
    [CHECKPOINT_MANIFEST_V, compactedAt, parent, Decimal(|sorted|)] + Map(sorted, EntryText)
    + (if kid.Some? then ["kid=" + kid.value] else [])
  }

  function SigningInput(compactedAt: string, parent: string, sorted: seq<Entry>, kid: Option<string>): string {
    Join(Parts(compactedAt, parent, sorted, kid), '|')
  }

  function Seal(c: Crypto, compactedAt: string, parent: string, sorted: seq<Entry>, kid: Option<string>): Manifest {
    var input := SigningInput(compactedAt, parent, sorted, kid);
    Manifest(compactedAt, parent, sorted, kid, input, Sha256Pref(c, input))
  }

  predicate Admissible(entries: seq<Entry>) {
    (forall i :: 0 <= i < |entries| ==> WellFormed(entries[i])) && Distinct(entries, HashOf)
  }

  predicate FieldsFree(compactedAt: string, parent: string, kid: Option<string>) {
    '|' !in compactedAt && '|' !in parent && (kid.Some? ==> '|' !in kid.value)
  }

  /** The normalising loop: shape, then duplicates; the first bad entry decides the refusal. */
  method Normalize(entries: seq<Entry>) returns (refusal: Option<Refusal>)
    ensures refusal.None? <==> Admissible(entries)
    ensures refusal != Some(DelimiterInField)
  {
    for i := 0 to |entries|
      invariant forall k :: 0 <= k < i ==> WellFormed(entries[k])
      invariant Distinct(entries[..i], HashOf)
    {
      var e := entries[i];
      if !IsSha256Hex(e.jtiHash) { return Some(JtiHashNotSha256); }
      if !IsSha(e.priorObject) { return Some(PriorObjectNotSha); }
      for j := 0 to i
        invariant forall k :: 0 <= k < j ==> entries[k].jtiHash != e.jtiHash
      {
        if entries[j].jtiHash == e.jtiHash {
          assert HashOf(entries[j]) == HashOf(entries[i]);
          return Some(DuplicateJtiHash);
        }
      }
    }
    assert entries[..|entries|] == entries;
    refusal := None;
  }

  method CheckpointManifest(c: Crypto, entries: seq<Entry>, compactedAt: string, kid: Option<string>, parent: Option<string>)
    returns (r: Outcome)
    ensures r.Accepted? <==> Admissible(entries) && FieldsFree(compactedAt, ParentMark(parent), kid)
    ensures r.Accepted? ==> r.manifest == Seal(c, compactedAt, ParentMark(parent), Sort(entries, HashOf), kid)
    ensures r.Accepted? ==> Issued(c, r.manifest)
  {
    var refusal := Normalize(entries);
    if refusal.Some? { return Refused(refusal.value); }
    var sorted := Sort(entries, HashOf);
    SortedIsAdmissible(entries);
    if !FieldsFree(compactedAt, ParentMark(parent), kid) { return Refused(DelimiterInField); }
    var parts := [CHECKPOINT_MANIFEST_V, compactedAt, ParentMark(parent), Decimal(|sorted|)] + Map(sorted, EntryText);
    if kid.Some? {
      parts := parts + ["kid=" + kid.value];
    } else {
      assert parts + [] == parts;
    }
    var input := Join(parts, '|');
    r := Accepted(Manifest(compactedAt, ParentMark(parent), sorted, kid, input, Sha256Pref(c, input)));
  }

  // ---------------------------------------------------------------- order and decoding

  /** A manifest the function returned. */
  ghost predicate Issued(c: Crypto, m: Manifest) {
    && m == Seal(c, m.compactedAt, m.parent, m.entries, m.kid)
    && Admissible(m.entries) && FieldsFree(m.compactedAt, m.parent, m.kid)
  }

  /** ORDER FREE. The order in which entries are listed changes neither acceptance nor a byte of the result. */
  lemma OrderIsForgotten(c: Crypto, entries: seq<Entry>, shuffled: seq<Entry>, compactedAt: string, parent: string, kid: Option<string>)
    requires multiset(entries) == multiset(shuffled) && Admissible(entries)
    ensures Admissible(shuffled)
    ensures Seal(c, compactedAt, parent, Sort(entries, HashOf), kid) == Seal(c, compactedAt, parent, Sort(shuffled, HashOf), kid)
  {
    SortForgetsOrder(entries, shuffled, HashOf);
    DistinctPermutes(entries, shuffled, HashOf);
    forall i | 0 <= i < |shuffled| ensures WellFormed(shuffled[i]) {
      assert shuffled[i] in multiset(entries);
      assert shuffled[i] in entries;
    }
  }

  /** Sorting keeps what the guards established. */
  lemma SortedIsAdmissible(entries: seq<Entry>)
    requires Admissible(entries)
    ensures Admissible(Sort(entries, HashOf))
  {
    DistinctPermutes(entries, Sort(entries, HashOf), HashOf);
    SortedIn(entries, HashOf);
  }

  lemma HexHasNo(s: string, d: char)
    requires (forall i :: 0 <= i < |s| ==> HexDigit(LowerChar(s[i]))) && d in ['|', ':']
    ensures d !in s
  {
  }

  lemma EntryTextInjective(a: Entry, b: Entry)
    requires WellFormed(a) && WellFormed(b) && EntryText(a) == EntryText(b)
    ensures a == b
  {
    assert EntryText(a)[..64] == a.jtiHash && EntryText(b)[..64] == b.jtiHash;
    assert EntryText(a)[65..] == a.priorObject && EntryText(b)[65..] == b.priorObject;
  }

  lemma PartsAreFree(compactedAt: string, parent: string, sorted: seq<Entry>, kid: Option<string>)
    requires Admissible(sorted) && FieldsFree(compactedAt, parent, kid)
    ensures Free(Parts(compactedAt, parent, sorted, kid), '|')
  {
    forall i | 0 <= i < |sorted| ensures '|' !in EntryText(sorted[i]) {
      assert WellFormed(sorted[i]);
      HexHasNo(sorted[i].jtiHash, '|');
      HexHasNo(sorted[i].priorObject, '|');
    }
    var head := [CHECKPOINT_MANIFEST_V, compactedAt, parent, Decimal(|sorted|)];
    assert Free(head, '|') && Free(Map(sorted, EntryText), '|');
    FreeAppend(head, Map(sorted, EntryText));
    FreeAppend(head + Map(sorted, EntryText), if kid.Some? then ["kid=" + kid.value] else []);
  }

  lemma FreeAppend(a: seq<string>, b: seq<string>)
    requires Free(a, '|') && Free(b, '|')
    ensures Free(a + b, '|')
  {
  }

  lemma PartsDecode(m: Manifest, n: Manifest)
    requires Parts(m.compactedAt, m.parent, m.entries, m.kid) == Parts(n.compactedAt, n.parent, n.entries, n.kid)
    requires Admissible(m.entries) && Admissible(n.entries)
    ensures m.compactedAt == n.compactedAt && m.parent == n.parent && m.entries == n.entries && m.kid == n.kid
  {
    var p, q := Parts(m.compactedAt, m.parent, m.entries, m.kid), Parts(n.compactedAt, n.parent, n.entries, n.kid);
    assert p[1] == m.compactedAt && q[1] == n.compactedAt && p[2] == m.parent && q[2] == n.parent;
    assert p[3] == Decimal(|m.entries|) && q[3] == Decimal(|n.entries|);
    DecimalInjective(|m.entries|, |n.entries|);
    forall i | 0 <= i < |m.entries| ensures m.entries[i] == n.entries[i] {
      assert p[4 + i] == EntryText(m.entries[i]) && q[4 + i] == EntryText(n.entries[i]);
      EntryTextInjective(m.entries[i], n.entries[i]);
    }
    if m.kid.Some? && n.kid.Some? {
      var last := 4 + |m.entries|;
      assert p[last] == "kid=" + m.kid.value && q[last] == "kid=" + n.kid.value;
      assert p[last][4..] == m.kid.value && q[last][4..] == n.kid.value;
    }
  }

  /** UNIQUE DECODING. The signed bytes give back time, parent, every entry and the kid. */
  lemma SigningInputDecodes(c: Crypto, m: Manifest, n: Manifest)
    requires Issued(c, m) && Issued(c, n) && m.signingInput == n.signingInput
    ensures m == n
  {
    PartsAreFree(m.compactedAt, m.parent, m.entries, m.kid);
    PartsAreFree(n.compactedAt, n.parent, n.entries, n.kid);
    JoinInjective(Parts(m.compactedAt, m.parent, m.entries, m.kid), Parts(n.compactedAt, n.parent, n.entries, n.kid), '|');
    PartsDecode(m, n);
  }

  // ---------------------------------------------------------------- chains

  /** Checkpoints from genesis, each naming the digest of the one before it. */
  ghost predicate Chain(c: Crypto, ms: seq<Manifest>) {
    && ms != [] && ms[0].parent == "-"
    && (forall i :: 0 <= i < |ms| ==> Issued(c, ms[i]))
    && (forall i :: 0 < i < |ms| ==> ms[i].parent == ms[i - 1].digest)
  }

  lemma ChainPrefix(c: Crypto, ms: seq<Manifest>)
    requires Chain(c, ms) && |ms| > 1
    ensures Chain(c, ms[..|ms| - 1])
  {
  }

  lemma SameDigestSameManifest(c: Crypto, m: Manifest, n: Manifest)
    requires IdealHash(c) && Issued(c, m) && Issued(c, n) && m.digest == n.digest
    ensures m == n
  {
    DigestInjective(c, m.signingInput, n.signingInput);
    SigningInputDecodes(c, m, n);
  }

  lemma DigestIsNoGenesis(c: Crypto, m: Manifest)
    requires Issued(c, m)
    ensures m.digest != "-"
  {
    assert Sha256Pref(c, m.signingInput)[0] == 's';
  }

  /** ONE HISTORY. Two chains whose heads have the same digest are the same chain, length included. */
  lemma {:induction false} HeadDeterminesHistory(c: Crypto, a: seq<Manifest>, b: seq<Manifest>)
    requires IdealHash(c) && Chain(c, a) && Chain(c, b)
    requires a[|a| - 1].digest == b[|b| - 1].digest
    ensures a == b
    decreases |a|
  {
    var m, n := |a| - 1, |b| - 1;
    SameDigestSameManifest(c, a[m], b[n]);
    if m > 0 { DigestIsNoGenesis(c, a[m - 1]); }
    if n > 0 { DigestIsNoGenesis(c, b[n - 1]); }
    if m > 0 && n > 0 {
      ChainPrefix(c, a);
      ChainPrefix(c, b);
      HeadDeterminesHistory(c, a[..m], b[..n]);
      assert a == a[..m] + [a[m]] && b == b[..n] + [b[n]];
    }
  }
}
