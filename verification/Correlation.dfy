/** The correlation: one signature over four fields joined by the unit separator. */
module Correlation {
  import opened Text
  import opened Crypto

  const CORRELATION_V := "cr.exec.correlation.v1"

  /** Missing fields join as the empty text; hash is "" when none is carried. */
  datatype Correlation = Correlation(
    v: string,
    scopeHash: string,
    contractCommit: string,
    contractPath: string,
    readbackCommit: string,
    hash: string,
    signature: string)

  datatype Verdict = Valid | Malformed | UnknownKey | Unbound | InvalidSignature

  function Fields(x: Correlation): seq<string> { [x.scopeHash, x.contractCommit, x.contractPath, x.readbackCommit] }

  function Preimage(x: Correlation): string { Join([CORRELATION_V] + Fields(x), US) }

  function VerifyCorrelation(c: Crypto, x: Correlation, key: Option<Key>): Verdict {
    if x.v != CORRELATION_V then Malformed
    else if key.None? then UnknownKey
    else if x.hash != "" && x.hash != Sha256Pref(c, Preimage(x)) then Unbound
    else if c.verify(key.value, Preimage(x), x.signature) then Valid
    else InvalidSignature
  }

  predicate Plain(x: Correlation) { Free(Fields(x), US) }

  /** The key signed, under this prefix, only correlations it made. */
  ghost predicate SignsOnly(c: Crypto, key: Key, made: set<Correlation>) {
    forall message, sig :: c.verify(key, message, sig) && StartsWith(message, CORRELATION_V + [US]) ==>
      exists y :: y in made && Plain(y) && message == Preimage(y)
  }

  lemma PreimageStarts(x: Correlation)
    ensures StartsWith(Preimage(x), CORRELATION_V + [US])
  {
    assert ([CORRELATION_V] + Fields(x))[1..] == Fields(x);
    assert Preimage(x) == CORRELATION_V + [US] + Join(Fields(x), US);
  }

  /** BOUND FIELD BY FIELD. A plain correlation that verifies agrees with one the key made in all four fields. */
  lemma ValidMeansMade(c: Crypto, x: Correlation, key: Key, made: set<Correlation>) returns (y: Correlation)
    requires SignsOnly(c, key, made) && Plain(x) && VerifyCorrelation(c, x, Some(key)) == Valid
    ensures y in made && Fields(y) == Fields(x)
    ensures x.hash != "" ==> x.hash == Sha256Pref(c, Preimage(y))
  {
    PreimageStarts(x);
    y :| y in made && Plain(y) && Preimage(x) == Preimage(y);
    assert Free([CORRELATION_V] + Fields(x), US) && Free([CORRELATION_V] + Fields(y), US);
    JoinInjective([CORRELATION_V] + Fields(x), [CORRELATION_V] + Fields(y), US);
    assert ([CORRELATION_V] + Fields(x))[1..] == Fields(x) && ([CORRELATION_V] + Fields(y))[1..] == Fields(y);
  }

  /** Nothing guards the separator: a field that holds it can swallow its neighbour. */
  lemma UnguardedFieldsShift(scope: string, commit: string, path: string, readback: string, signature: string)
    ensures Preimage(Correlation(CORRELATION_V, scope + [US] + commit, path, readback, "", "", signature))
         == Preimage(Correlation(CORRELATION_V, scope, commit, path, readback + [US], "", signature))
  {
    var a := Correlation(CORRELATION_V, scope + [US] + commit, path, readback, "", "", signature);
    var b := Correlation(CORRELATION_V, scope, commit, path, readback + [US], "", signature);
    assert Preimage(a) == CORRELATION_V + [US] + (scope + [US] + commit) + [US] + path + [US] + readback + [US] by { Five(a); }
    assert Preimage(b) == CORRELATION_V + [US] + scope + [US] + commit + [US] + path + [US] + (readback + [US]) by { Five(b); }
  }

  lemma Five(x: Correlation)
    ensures Preimage(x)
         == CORRELATION_V + [US] + x.scopeHash + [US] + x.contractCommit + [US] + x.contractPath + [US] + x.readbackCommit
  {
    var a, b, d, e := x.scopeHash, x.contractCommit, x.contractPath, x.readbackCommit;
    assert [CORRELATION_V] + Fields(x) == [CORRELATION_V, a, b, d, e];
    assert [CORRELATION_V, a, b, d, e][1..] == [a, b, d, e] && [a, b, d, e][1..] == [b, d, e];
    assert [b, d, e][1..] == [d, e] && [d, e][1..] == [e];
    assert Join([d, e], US) == d + [US] + e;
    assert Join([b, d, e], US) == b + [US] + (d + [US] + e);
    assert Join([a, b, d, e], US) == a + [US] + (b + [US] + (d + [US] + e));
  }

  /** Some other fields have the same preimage. */
  ghost predicate Shared(x: Correlation) { exists y :: Preimage(y) == Preimage(x) && Fields(y) != Fields(x) }

  /** A separator inside a field can be given to a neighbour: the last field's to the left, others' to the right. */
  lemma Regroup(x: Correlation, u: string, w: string) returns (y: Correlation)
    requires u + [US] + w in Fields(x)
    ensures Preimage(y) == Preimage(x) && Fields(y) != Fields(x)
  {
    var f := u + [US] + w;
    var a, b, d, e := x.scopeHash, x.contractCommit, x.contractPath, x.readbackCommit;
    var p := CORRELATION_V + [US];
    assert |u| < |f| && |w| < |f|;
    Five(x);
    if f == a {
      y := x.(scopeHash := u, contractCommit := w + [US] + b);
      Shift(p, u, w, b);
    } else if f == b {
      y := x.(contractCommit := u, contractPath := w + [US] + d);
      Shift(p + a + [US], u, w, d);
    } else if f == d {
      y := x.(contractPath := u, readbackCommit := w + [US] + e);
      Shift(p + a + [US] + b + [US], u, w, e);
    } else {
      y := x.(contractPath := d + [US] + u, readbackCommit := w);
      Shift(p + a + [US] + b + [US], d, u, w);
    }
    Five(y);
    assert Fields(y)[0] == y.scopeHash && Fields(y)[1] == y.contractCommit && Fields(y)[2] == y.contractPath;
    assert Fields(y)[3] == y.readbackCommit;
  }

  lemma Shift(p: string, u: string, w: string, b: string)
    ensures p + (u + [US] + w) + [US] + b == p + u + [US] + (w + [US] + b)
  {
  }

  /** A preimage of plain fields is nobody else's. */
  lemma PlainIsUnshared(x: Correlation, y: Correlation)
    requires Plain(x) && Preimage(y) == Preimage(x)
    ensures Fields(y) == Fields(x)
  {
    var p, q := [CORRELATION_V] + Fields(x), [CORRELATION_V] + Fields(y);
    assert Free(p, US);
    SplitJoin(p, US);
    JoinedParts(q, US);
    JoinInjective(p, q, US);
    assert p[1..] == Fields(x) && q[1..] == Fields(y);
  }

  /** WHEN THE FOUR FIELDS ARE BOUND. A preimage belongs to one tuple of fields if and only if none holds the separator. */
  lemma BoundIffPlain(x: Correlation)
    ensures !Shared(x) <==> Plain(x)
  {
    if Plain(x) {
      forall y | Preimage(y) == Preimage(x) ensures Fields(y) == Fields(x) { PlainIsUnshared(x, y); }
    } else {
      var i :| 0 <= i < 4 && US in Fields(x)[i];
      var f := Fields(x)[i];
      var k :| 0 <= k < |f| && f[k] == US;
      assert f[..k] + [US] + f[k + 1..] == f;
      var y := Regroup(x, f[..k], f[k + 1..]);
    }
  }
}
