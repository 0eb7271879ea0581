/**
 * Record identifiers. The store hands out identifiers from a counter; a
 * response carries an identifier as its 24-character lower-case hexadecimal
 * string, the shape of a document id's `toString()`. `ParseHex` reads such a
 * string back (in either letter case), which makes the rendering injective on
 * the identifier space. `Cast` is how a lookup turns a client's id string
 * into an identifier: 24 hexadecimal digits of either case, else a cast error.
 */
module ObjectId {
  import opened Wrappers

  const TokenLength: nat := 24

  function Pow16(k: nat): (r: nat)
    ensures r >= 1
  {
    if k == 0 then 1 else 16 * Pow16(k - 1)
  }

  /** Identifiers that fit in 24 hexadecimal digits. */
  const IdSpace: nat := Pow16(TokenLength)

  function HexDigit(d: nat): (c: char)
    requires d < 16
  {
    if d < 10 then ('0' as int + d) as char else ('a' as int + d - 10) as char
  }

  /** The value of a hexadecimal digit; letters count in either case. */
  function DigitValue(c: char): (r: Option<nat>)
    ensures r.Some? <==> '0' <= c <= '9' || 'a' <= c <= 'f' || 'A' <= c <= 'F'
    ensures r.Some? ==> r.value < 16
  {
    if '0' <= c <= '9' then Some(c as int - '0' as int)
    else if 'a' <= c <= 'f' then Some(c as int - 'a' as int + 10)
    else if 'A' <= c <= 'F' then Some(c as int - 'A' as int + 10)
    else None
  }

  /** The lowest `k` hexadecimal digits of `n`, most significant first. */
  function Hex(n: nat, k: nat): (s: string)
    ensures |s| == k
  {
    if k == 0 then [] else Hex(n / 16, k - 1) + [HexDigit(n % 16)]
  }

  function Token(id: nat): (s: string)
    ensures |s| == TokenLength
  {
    Hex(id, TokenLength)
  }

  /** Reads a string of hexadecimal digits; fails on any other character. */
  function ParseHex(s: string): Option<nat> {
    if s == [] then Some(0)
    else
      match ParseHex(s[..|s| - 1])
      case None => None
      case Some(high) =>
        match DigitValue(s[|s| - 1])
        case None => None
        case Some(low) => Some(16 * high + low)
  }

  lemma DigitRoundTrip(d: nat)
    requires d < 16
    ensures DigitValue(HexDigit(d)) == Some(d)
  {
  }

  /** Parsing inverts rendering for every value that fits in the digits kept. */
  lemma {:induction false} ParseHexOfHex(n: nat, k: nat)
    requires n < Pow16(k)
    ensures ParseHex(Hex(n, k)) == Some(n)
  {
    if k > 0 {
      var s := Hex(n, k);
      assert s[..|s| - 1] == Hex(n / 16, k - 1);
      assert s[|s| - 1] == HexDigit(n % 16);
      ParseHexOfHex(n / 16, k - 1);
      DigitRoundTrip(n % 16);
    }
  }

  lemma TokenRoundTrip(id: nat)
    requires id < IdSpace
    ensures ParseHex(Token(id)) == Some(id)
  {
    ParseHexOfHex(id, TokenLength);
  }

  /** Distinct identifiers render as distinct tokens. */
  lemma TokenInjective(a: nat, b: nat)
    requires a < IdSpace && b < IdSpace && a != b
    ensures Token(a) != Token(b)
  {
    TokenRoundTrip(a);
    TokenRoundTrip(b);
  }

  predicate AllHexDigits(s: string) {
    forall i :: 0 <= i < |s| ==> DigitValue(s[i]).Some?
  }

  lemma {:induction false} ParseHexDefined(s: string)
    ensures ParseHex(s).Some? <==> AllHexDigits(s)
    ensures ParseHex(s).Some? ==> ParseHex(s).value < Pow16(|s|)
  {
    if s != [] {
      var init := s[..|s| - 1];
      ParseHexDefined(init);
      assert forall i :: 0 <= i < |init| ==> init[i] == s[i];
    }
  }

  /**
   * Casting a client-supplied id string to an identifier: exactly 24
   * hexadecimal digits, upper- or lower-case; anything else fails.
   */
  function Cast(s: string): (r: Option<nat>)
    ensures r.Some? <==> |s| == TokenLength && AllHexDigits(s)
    ensures r.Some? ==> r.value < IdSpace && ParseHex(s) == r
  {
    ParseHexDefined(s);
    if |s| != TokenLength then None else ParseHex(s)
  }

  /** The cast reads a rendered token back as its identifier. */
  lemma CastToken(id: nat)
    requires id < IdSpace
    ensures Cast(Token(id)) == Some(id)
  {
    TokenRoundTrip(id);
  }

  /** The lower-case form of a hexadecimal letter; every other character is left alone. */
  function LowerHex(c: char): char {
    if 'A' <= c <= 'F' then (c as int + 32) as char else c
  }

  /** Two strings that agree up to the case of their hexadecimal letters read as the same value. */
  lemma {:induction false} ParseHexIgnoresCase(s: string, t: string)
    requires |s| == |t| && forall i :: 0 <= i < |s| ==> LowerHex(s[i]) == LowerHex(t[i])
    ensures ParseHex(s) == ParseHex(t)
  {
    if s != [] {
      ParseHexIgnoresCase(s[..|s| - 1], t[..|t| - 1]);
      assert DigitValue(s[|s| - 1]) == DigitValue(t[|t| - 1]);
    }
  }

  /** Letter case does not matter to the cast. */
  lemma CastIgnoresCase(s: string, t: string)
    requires |s| == |t| && forall i :: 0 <= i < |s| ==> LowerHex(s[i]) == LowerHex(t[i])
    ensures Cast(s) == Cast(t)
  {
    ParseHexIgnoresCase(s, t);
  }

  /** A rendered token has no upper-case letters. */
  lemma {:induction false} HexIsLowerCase(n: nat, k: nat)
    ensures forall i :: 0 <= i < k ==> LowerHex(Hex(n, k)[i]) == Hex(n, k)[i]
  {
    if k > 0 {
      HexIsLowerCase(n / 16, k - 1);
      assert forall i :: 0 <= i < k - 1 ==> Hex(n, k)[i] == Hex(n / 16, k - 1)[i];
    }
  }

  /** Any spelling of an identifier's token, in whatever letter case, casts to that identifier. */
  lemma CastCaseVariant(s: string, id: nat)
    requires id < IdSpace && |s| == TokenLength
    requires forall i :: 0 <= i < |s| ==> LowerHex(s[i]) == Token(id)[i]
    ensures Cast(s) == Some(id)
  {
    HexIsLowerCase(id, TokenLength);
    CastIgnoresCase(s, Token(id));
    CastToken(id);
  }

  /** An instance: the token of identifier 10 and its upper-case spelling. */
  lemma CastUpperCaseExample()
    ensures Token(10) == "00000000000000000000000a"
    ensures Cast("00000000000000000000000A") == Some(10)
  {
    var zeros := "00000000000000000000000";
    assert Token(10) == "00000000000000000000000a" by {
      assert Hex(0, 23) == zeros by { HexZero(23); }
    }
    CastCaseVariant("00000000000000000000000A", 10);
  }

  lemma {:induction false} HexZero(k: nat)
    ensures Hex(0, k) == seq(k, _ => '0')
  {
    if k > 0 { HexZero(k - 1); }
  }
}
