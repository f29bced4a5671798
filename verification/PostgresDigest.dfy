/** What a challenge's state digest says about the row: title and body are joined by an unguarded separator. */
module PostgresDigest {
  import opened Text
  import opened Crypto
  import opened PgTables
  import opened Postgres

  /** The text of an epoch holds no separator. */
  predicate Stamped(a: Article) { ':' !in a.updatedAt }

  function RowText(target: string, a: Article): string {
    "row:" + target + ":" + (a.title + ":" + a.body + ":" + a.updatedAt)
  }

  lemma DigestedText(c: Crypto, target: string, a: Article)
    ensures DigestOf(c, target, Some(a)) == Sha256Pref(c, RowText(target, a))
  {
    var d, e, f := a.title, a.body, a.updatedAt;
    assert ["row", target, d, e, f][1..] == [target, d, e, f] && [target, d, e, f][1..] == [d, e, f];
    assert [d, e, f][1..] == [e, f] && [e, f][1..] == [f];
    assert Join([e, f], ':') == e + [':'] + f;
    assert Join([d, e, f], ':') == d + [':'] + (e + [':'] + f);
    assert d + [':'] + (e + [':'] + f) == d + ":" + e + ":" + f;
    assert Join(["row", target, d, e, f], ':') == "row" + [':'] + (target + [':'] + Join([d, e, f], ':'));
    assert "row" + [':'] + (target + [':'] + (d + ":" + e + ":" + f)) == RowText(target, a);
  }

  /** Of two ways to cut a text at a separator, the earlier leaves a later separator behind. */
  lemma LaterCut(x: string, u: string, y: string, v: string, d: char)
    requires x + [d] + u == y + [d] + v && |x| < |y|
    ensures d in u
  {
    assert (y + [d] + v)[|y|] == d && (x + [d] + u)[|y|] == u[|y| - |x| - 1];
  }

  /** Text after the last separator, and before it, are both determined. */
  lemma CutLast(x: string, u: string, y: string, v: string, d: char)
    requires d !in u && d !in v && x + [d] + u == y + [d] + v
    ensures x == y && u == v
  {
    if |x| < |y| {
      LaterCut(x, u, y, v, d);
    } else if |y| < |x| {
      LaterCut(y, v, x, u, d);
    }
    var s, t := x + [d] + u, y + [d] + v;
    assert s[..|x|] == x && t[..|y|] == y && s[|x| + 1..] == u && t[|y| + 1..] == v;
  }

  /** Equal digests of one row mean equal stamps and equal title and body, once joined. */
  lemma DigestsEqualIff(c: Crypto, target: string, a: Article, b: Article)
    requires IdealHash(c) && Stamped(a) && Stamped(b)
    ensures DigestOf(c, target, Some(a)) == DigestOf(c, target, Some(b)) <==>
            a.updatedAt == b.updatedAt && a.title + ":" + a.body == b.title + ":" + b.body
  {
    DigestedText(c, target, a);
    DigestedText(c, target, b);
    if DigestOf(c, target, Some(a)) == DigestOf(c, target, Some(b)) {
      DigestInjective(c, RowText(target, a), RowText(target, b));
      var n := |"row:" + target + ":"|;
      assert RowText(target, a)[n..] == a.title + ":" + a.body + ":" + a.updatedAt;
      assert RowText(target, b)[n..] == b.title + ":" + b.body + ":" + b.updatedAt;
      CutLast(a.title + ":" + a.body, a.updatedAt, b.title + ":" + b.body, b.updatedAt, ':');
    }
  }

  /** No digest of a row is the digest of its absence. */
  lemma RowIsNotAbsence(c: Crypto, target: string, a: Article)
    requires IdealHash(c)
    ensures DigestOf(c, target, Some(a)) != DigestOf(c, target, None)
  {
    DigestedText(c, target, a);
    assert RowText(target, a)[0] == 'r' && ("absent:" + target)[0] == 'a';
    if DigestOf(c, target, Some(a)) == DigestOf(c, target, None) {
      DigestInjective(c, RowText(target, a), "absent:" + target);
    }
  }

  /** This digest is the digest of no other state of the row. */
  ghost predicate Pinned(c: Crypto, target: string, a: Article) {
    forall row: Option<Article> ::
      (row.Some? ==> Stamped(row.value)) && DigestOf(c, target, row) == DigestOf(c, target, Some(a)) ==> row == Some(a)
  }

  lemma PlainIsPinned(c: Crypto, target: string, a: Article, b: Article)
    requires IdealHash(c) && Stamped(a) && Stamped(b) && ':' !in a.title && ':' !in a.body
    requires DigestOf(c, target, Some(b)) == DigestOf(c, target, Some(a))
    ensures b == a
  {
    DigestsEqualIff(c, target, b, a);
    assert [a.title, a.body][1..] == [a.body] && [b.title, b.body][1..] == [b.body];
    assert Join([a.title, a.body], ':') == a.title + ":" + a.body && Join([b.title, b.body], ':') == b.title + ":" + b.body;
    SplitJoin([a.title, a.body], ':');
    JoinedParts([b.title, b.body], ':');
    JoinInjective([a.title, a.body], [b.title, b.body], ':');
    assert [a.title, a.body][0] == [b.title, b.body][0] && [a.title, a.body][1] == [b.title, b.body][1];
  }

  /** A separator inside title or body can be given to the other. */
  lemma Regroup(c: Crypto, target: string, a: Article, u: string, w: string) returns (b: Article)
    requires IdealHash(c) && Stamped(a) && (u + ":" + w == a.title || u + ":" + w == a.body)
    ensures Stamped(b) && b != a && DigestOf(c, target, Some(b)) == DigestOf(c, target, Some(a))
  {
    if u + ":" + w == a.title {
      b := a.(title := u, body := w + ":" + a.body);
      assert |b.title| < |a.title|;
      assert b.title + ":" + b.body == a.title + ":" + a.body;
    } else {
      b := a.(title := a.title + ":" + u, body := w);
      assert |b.body| < |a.body|;
      assert b.title + ":" + b.body == a.title + ":" + a.body;
    }
    DigestsEqualIff(c, target, a, b);
  }

  /** WHEN A DIGEST PINS ITS ROW: if and only if neither title nor body holds the separator. */
  lemma DigestPinsIff(c: Crypto, target: string, a: Article)
    requires IdealHash(c) && Stamped(a)
    ensures Pinned(c, target, a) <==> ':' !in a.title && ':' !in a.body
  {
    if ':' !in a.title && ':' !in a.body {
      forall row: Option<Article> | (row.Some? ==> Stamped(row.value)) && DigestOf(c, target, row) == DigestOf(c, target, Some(a))
        ensures row == Some(a)
      {
        if row.Some? { PlainIsPinned(c, target, a, row.value); } else { RowIsNotAbsence(c, target, a); }
      }
    } else {
      var f := if ':' in a.title then a.title else a.body;
      var k :| 0 <= k < |f| && f[k] == ':';
      assert f[..k] + ":" + f[k + 1..] == f;
      var b := Regroup(c, target, a, f[..k], f[k + 1..]);
      assert Some(b) != Some(a);
    }
  }
}
