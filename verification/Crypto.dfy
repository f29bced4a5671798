/**
 * Idealised primitives. A Crypto value packages the functions the code calls; Ideal lists all that
 * the proofs assume of them, so every theorem holds for every hash, encoding and signature scheme
 * with those properties.
 */
module Crypto {
  import opened Text

  type Key = string

  datatype Crypto = Crypto(
    sha256hex: string -> string,
    b64: string -> string,        // Buffer.from(s, 'utf8').toString('base64url')
    unb64: string -> string,      // Buffer.from(s, 'base64url').toString('utf8'), lenient and total
    sign: (Key, string) -> string,         // base64url signature text
    verify: (Key, string, string) -> bool) // public key, message, base64url signature text

  /** A base64url segment: non-empty and free of every separator the formats use. */
  predicate Segment(s: string) {
    s != "" && '|' !in s && '.' !in s
  }

  /** The hash is injective and prints hexadecimal. */
  ghost predicate IdealHash(c: Crypto) {
    && (forall x, y :: c.sha256hex(x) == c.sha256hex(y) ==> x == y)
    && (forall x :: Hex(c.sha256hex(x)) && c.sha256hex(x) != "")
  }

  /**
   * With encodings and signing as well: what was encoded decodes, what was signed verifies. It says
   * nothing about what else verifies; theorems that need a key to verify only what it signed say so
   * themselves, over IdealHash.
   */
  ghost predicate Ideal(c: Crypto) {
    && IdealHash(c)
    && (forall x :: c.unb64(c.b64(x)) == x)
    && (forall x :: x != "" ==> Segment(c.b64(x)))
    && (forall k, m :: Segment(c.sign(k, m)) && c.verify(k, m, c.sign(k, m)))
  }

  function Sha256Pref(c: Crypto, s: string): string { "sha256:" + c.sha256hex(s) }

  lemma DigestInjective(c: Crypto, x: string, y: string)
    requires IdealHash(c) && Sha256Pref(c, x) == Sha256Pref(c, y)
    ensures x == y
  {
    assert Sha256Pref(c, x)[7..] == c.sha256hex(x);
    assert Sha256Pref(c, y)[7..] == c.sha256hex(y);
  }

  /** A digest contains none of the separators. */
  lemma DigestFree(c: Crypto, x: string, d: char)
    requires IdealHash(c) && !HexDigit(d) && d !in "sha256:"
    ensures d !in Sha256Pref(c, x) && d !in c.sha256hex(x)
  {
    assert Hex(c.sha256hex(x));
  }

  // ---------------------------------------------------------------- the assumptions can be met

  /** Each character in unary, closed by a zero; a last zero closes the text. */
  function Spell(x: string): string {
    if x == "" then "0" else Repeat('a', x[0] as int) + ['0'] + Spell(x[1..])
  }

  function CharOf(n: nat): char {
    if n < 0xD800 || 0xE000 <= n < 0x110000 then n as char else ' '
  }

  function CharsOf(parts: seq<string>): string {
    if |parts| <= 2 then "" else [CharOf(|parts[0]|)] + CharsOf(parts[1..])
  }

  function Unspell(s: string): string { CharsOf(Split(s, '0')) }

  lemma {:induction false} SpellIsHex(x: string)
    ensures Hex(Spell(x)) && Spell(x) != ""
  {
    if x != "" { SpellIsHex(x[1..]); }
  }

  lemma {:induction false} SpellBack(x: string)
    ensures Unspell(Spell(x)) == x && |Split(Spell(x), '0')| == |x| + 2
  {
    if x == "" {
      assert Split("0", '0') == ["", ""];
    } else {
      var head := Repeat('a', x[0] as int);
      SpellBack(x[1..]);
      SplitFirst(head, Spell(x[1..]), '0');
      assert ([head] + Split(Spell(x[1..]), '0'))[1..] == Split(Spell(x[1..]), '0');
      assert x == [x[0]] + x[1..];
    }
  }

  /** NOT VACUOUS. There are primitives with every property assumed here. */
  lemma IdealIsPossible() returns (c: Crypto)
    ensures Ideal(c)
  {
    var sign := (k: Key, m: string) => Spell(k) + "g" + Spell(m);
    c := Crypto(Spell, Spell, Unspell, sign, (k: Key, m: string, s: string) => s == sign(k, m));
    forall x ensures Unspell(Spell(x)) == x { SpellBack(x); }
    forall x, y | Spell(x) == Spell(y) ensures x == y {
      assert Unspell(Spell(x)) == x && Unspell(Spell(y)) == y;
    }
    forall x ensures Hex(Spell(x)) && Segment(Spell(x)) { SpellIsHex(x); }
    forall k, m ensures Segment(c.sign(k, m)) && c.verify(k, m, c.sign(k, m)) {
      assert Hex(Spell(k)) && Hex(Spell(m));
    }
  }
}
