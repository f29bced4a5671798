/**
 * The git repository the executor works on: refs, reflogs, ref transactions, and pushes filtered
 * by the pre-receive hook.
 */
module GitStore {
  import opened Text
  import opened Crypto

  const MARKER_PREFIX := "cr.exclusive.v1 jti="
  const LEDGER_DIR := "refs/coderifts/consumed/"
  const OID_LENGTH := 40
  /** The all-zero object id: "does not exist" on either side of an update. */
  const ZERO: string := Repeat('0', OID_LENGTH)

  /** What changes: ref values and reflog messages (oldest first). */
  datatype Repo = Repo(refs: map<string, string>, reflogs: map<string, seq<string>>)

  /**
   * What does not change: the primitives, the object database (each object id with the commit it
   * peels to, if any) and the refs for which core.logAllRefUpdates keeps a reflog.
   */
  datatype Host = Host(crypto: Crypto, objects: map<string, Option<string>>, logged: string -> bool)

  predicate IsSha(s: string) {
    |s| == OID_LENGTH && forall i :: 0 <= i < |s| ==> HexDigit(LowerChar(s[i]))
  }

  function LedgerRefFor(c: Crypto, jti: string): string {
    var h := c.sha256hex(jti);
    LEDGER_DIR + (if |h| >= 2 then h[..2] else h) + "/" + h
  }

  function MarkerOf(jti: string): string { MARKER_PREFIX + jti }

  predicate InLedger(ref: string) { StartsWith(ref, LEDGER_DIR) }

  function Reflog(repo: Repo, ref: string): seq<string> {
    if ref in repo.reflogs then repo.reflogs[ref] else []
  }

  function Value(repo: Repo, ref: string): string {
    if ref in repo.refs then repo.refs[ref] else ZERO
  }

  /** A ref accepts an object that exists; a branch accepts only commits. */
  predicate Storable(host: Host, ref: string, oid: string) {
    oid in host.objects && (StartsWith(ref, "refs/heads/") ==> host.objects[oid] == Some(oid))
  }

  /**
   * One `update` command under the ref lock: compare with old, then write, log or delete.
   * Writing the value already held changes nothing and logs nothing.
   */
  function RefWrite(host: Host, repo: Repo, ref: string, newOid: string, oldOid: string, msg: string): Option<Repo> {
    if Value(repo, ref) != oldOid then None
    else if newOid == ZERO then Some(Repo(repo.refs - {ref}, repo.reflogs - {ref}))
    else if !Storable(host, ref, newOid) then None
    else if newOid == oldOid then Some(repo)
    else
      var logs := if host.logged(ref) then repo.reflogs[ref := Reflog(repo, ref) + [msg]] else repo.reflogs;
      Some(Repo(repo.refs[ref := newOid], logs))
  }

  /** `update-ref --stdin` with two updates: both land or neither does. */
  function Batch(host: Host, repo: Repo, ledgerRef: string, ref: string, newOid: string, oldOid: string, msg: string)
    : Option<Repo>
  {
    if ref == ledgerRef then None
    else
      var claimed := RefWrite(host, repo, ledgerRef, newOid, ZERO, msg);
      if claimed.None? then None else RefWrite(host, claimed.value, ref, newOid, oldOid, msg)
  }

  /** `rev-parse --verify ref^{commit}`, or the absent marker. */
  function ReadRef(host: Host, repo: Repo, ref: string): string {
    if ref in repo.refs && IsCommit(host, repo.refs[ref])
    then host.objects[repo.refs[ref]].value
    else "absent:" + ref
  }

  predicate IsCommit(host: Host, oid: string) {
    oid in host.objects && host.objects[oid].Some? && IsSha(host.objects[oid].value)
  }

  /** Reflog messages as the reader sees them: trimmed, empty lines dropped. */
  function ReadLines(log: seq<string>): seq<string> {
    if log == [] then []
    else
      var line := Trim(log[0]);
      (if line == "" then [] else [line]) + ReadLines(log[1..])
  }

  function ReflogMarkers(repo: Repo, ref: string): seq<string> { ReadLines(Reflog(repo, ref)) }

  lemma {:induction false} ReadLinesIn(log: seq<string>, line: string)
    ensures line in ReadLines(log) <==> line != "" && exists k :: 0 <= k < |log| && Trim(log[k]) == line
  {
    if log != [] {
      ReadLinesIn(log[1..], line);
      assert forall k :: 1 <= k < |log| ==> log[k] == log[1..][k - 1];
    }
  }

  // ---------------------------------------------------------------- pushes and the hook

  datatype Command = Command(oldOid: string, newOid: string, ref: string)

  /** Deleting or overwriting a claim is refused; creating one, and everything else, passes. */
  predicate HookRefuses(c: Command) {
    InLedger(c.ref) && (c.newOid == ZERO || c.oldOid != ZERO)
  }

  predicate HookAccepts(cmds: seq<Command>) {
    forall i :: 0 <= i < |cmds| ==> !HookRefuses(cmds[i])
  }

  /** The hook's read loop: every triple is inspected before the exit status is decided. */
  method PreReceive(cmds: seq<Command>) returns (status: int, refused: seq<string>)
    ensures status == 0 <==> HookAccepts(cmds)
    ensures status == 0 || status == 1
    ensures forall r :: r in refused <==> exists i :: 0 <= i < |cmds| && HookRefuses(cmds[i]) && cmds[i].ref == r
  {
    status, refused := 0, [];
    for i := 0 to |cmds|
      invariant status == 0 || status == 1
      invariant status == 0 <==> HookAccepts(cmds[..i])
      invariant forall r :: r in refused <==> exists k :: 0 <= k < i && HookRefuses(cmds[k]) && cmds[k].ref == r
    {
      var c := cmds[i];
      assert cmds[..i + 1] == cmds[..i] + [c];
      if InLedger(c.ref) {
        if c.newOid == ZERO {
          refused := refused + [c.ref];
          status := 1;
        } else if c.oldOid != ZERO {
          refused := refused + [c.ref];
          status := 1;
        }
      }
    }
    assert cmds[..|cmds|] == cmds;
  }

  /** receive-pack: each accepted command is applied under its own compare-and-swap. */
  function ReceivePack(host: Host, repo: Repo, cmds: seq<Command>): Repo
    decreases |cmds|
  {
    if cmds == [] then repo
    else
      var w := RefWrite(host, repo, cmds[0].ref, cmds[0].newOid, cmds[0].oldOid, "push");
      ReceivePack(host, if w.Some? then w.value else repo, cmds[1..])
  }

  function PushResult(host: Host, repo: Repo, cmds: seq<Command>): Repo {
    if HookAccepts(cmds) then ReceivePack(host, repo, cmds) else repo
  }

  /** No ref holds the all-zero id. */
  predicate NonZero(repo: Repo) {
    forall r :: r in repo.refs ==> repo.refs[r] != ZERO
  }

  /**
   * The hook and receive-pack's own compare-and-swap together make the ledger append-only:
   * a claim present before a push is there afterwards with the same value.
   */
  lemma {:induction false} LedgerAppendOnly(host: Host, repo: Repo, cmds: seq<Command>, name: string)
    requires NonZero(repo) && HookAccepts(cmds)
    requires InLedger(name) && name in repo.refs
    ensures name in ReceivePack(host, repo, cmds).refs
    ensures ReceivePack(host, repo, cmds).refs[name] == repo.refs[name]
    decreases |cmds|
  {
    if cmds != [] {
      var c := cmds[0];
      assert !HookRefuses(c);
      var w := RefWrite(host, repo, c.ref, c.newOid, c.oldOid, "push");
      var repo' := if w.Some? then w.value else repo;
      assert c.ref == name ==> c.oldOid == ZERO && w.None?;
      LedgerAppendOnly(host, repo', cmds[1..], name);
    }
  }

  lemma {:induction false} ReceivePackNonZero(host: Host, repo: Repo, cmds: seq<Command>)
    requires NonZero(repo)
    ensures NonZero(ReceivePack(host, repo, cmds))
    decreases |cmds|
  {
    if cmds != [] {
      var w := RefWrite(host, repo, cmds[0].ref, cmds[0].newOid, cmds[0].oldOid, "push");
      ReceivePackNonZero(host, if w.Some? then w.value else repo, cmds[1..]);
    }
  }

  /** The refs a push really deletes: named in a delete command that was applied. */
  function DeletedBy(host: Host, repo: Repo, cmds: seq<Command>): set<string>
    decreases |cmds|
  {
    if cmds == [] then {}
    else
      var w := RefWrite(host, repo, cmds[0].ref, cmds[0].newOid, cmds[0].oldOid, "push");
      (if w.Some? && cmds[0].newOid == ZERO then {cmds[0].ref} else {})
      + DeletedBy(host, if w.Some? then w.value else repo, cmds[1..])
  }

  lemma WriteKeepsLog(host: Host, repo: Repo, c: Command, ref: string, line: string)
    requires RefWrite(host, repo, c.ref, c.newOid, c.oldOid, "push").Some?
    ensures var repo' := RefWrite(host, repo, c.ref, c.newOid, c.oldOid, "push").value;
            && (line in Reflog(repo', ref) ==> line in Reflog(repo, ref) || line == "push")
            && (line in Reflog(repo, ref) && !(c.ref == ref && c.newOid == ZERO) ==> line in Reflog(repo', ref))
            && (c.ref == ref && c.newOid == ZERO ==> Reflog(repo', ref) == [])
  {
  }

  /**
   * What a push does to a line that is not its own: it stays exactly where its ref was not deleted,
   * and no such line appears anew.
   */
  lemma {:induction false} ReceivePackLogs(host: Host, repo: Repo, cmds: seq<Command>, ref: string, line: string)
    requires line != "push"
    ensures line in Reflog(ReceivePack(host, repo, cmds), ref) <==>
            line in Reflog(repo, ref) && ref !in DeletedBy(host, repo, cmds)
    decreases |cmds|
  {
    if cmds != [] {
      var w := RefWrite(host, repo, cmds[0].ref, cmds[0].newOid, cmds[0].oldOid, "push");
      if w.Some? { WriteKeepsLog(host, repo, cmds[0], ref, line); }
      ReceivePackLogs(host, if w.Some? then w.value else repo, cmds[1..], ref, line);
    }
  }

  // ---------------------------------------------------------------- ledger names

  lemma LedgerRefInLedger(c: Crypto, jti: string)
    ensures InLedger(LedgerRefFor(c, jti))
  {
  }

  /** The last path component of a claim's name is the full hash, so distinct grants never share a claim. */
  lemma LedgerRefHash(c: Crypto, jti: string)
    requires IdealHash(c)
    ensures HashOfLedgerRef(LedgerRefFor(c, jti)) == c.sha256hex(jti)
  {
    var h := c.sha256hex(jti);
    assert Hex(h);
    var name := LedgerRefFor(c, jti);
    assert name == name[..|name| - |h|] + h;
    var at := LastIndexOf(name, '/');
    assert name[|name| - |h| - 1] == '/';
    assert forall k :: |name| - |h| <= k < |name| ==> name[k] == h[k - (|name| - |h|)];
    assert at == |name| - |h| - 1;
    assert name[at + 1..] == h;
  }

  /** `refname.split('/').pop()`. */
  function HashOfLedgerRef(ref: string): string { ref[LastIndexOf(ref, '/') + 1..] }

  lemma LedgerRefInjective(c: Crypto, a: string, b: string)
    requires IdealHash(c) && LedgerRefFor(c, a) == LedgerRefFor(c, b)
    ensures a == b
  {
    LedgerRefHash(c, a);
    LedgerRefHash(c, b);
  }
}
