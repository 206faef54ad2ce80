/** Text encodings the signer and the database rely on: decimal numbers,
    hexadecimal digests, and UUIDs with their canonical (lower-case) form. */
module Codec {

  // ---------- decimal ----------

  predicate IsDigit(c: char) {
    '0' <= c <= '9'
  }

  predicate AllDigits(s: string) {
    forall i :: 0 <= i < |s| ==> IsDigit(s[i])
  }

  /** `String(n)` for a natural number below the exponent threshold. */
  function DecimalNat(n: nat): (s: string)
    ensures |s| > 0 && AllDigits(s)
  {
    var last := [('0' as int + n % 10) as char];
    if n < 10 then last else DecimalNat(n / 10) + last
  }

  function Decimal(n: int): string {
    if n < 0 then "-" + DecimalNat(-n) else DecimalNat(n)
  }

  /** The mathematical value of a run of decimal digits. */
  function ParseDigits(s: string): nat
    requires AllDigits(s)
  {
    if s == [] then 0
    else ParseDigits(s[..|s| - 1]) * 10 + (s[|s| - 1] as int - '0' as int)
  }

  lemma {:induction false} DecimalRoundTrip(n: nat)
    ensures ParseDigits(DecimalNat(n)) == n
  {
    var s := DecimalNat(n);
    if n < 10 {
      assert s[..|s| - 1] == [];
    } else {
      DecimalRoundTrip(n / 10);
      assert s[..|s| - 1] == DecimalNat(n / 10);
    }
  }

  lemma DecimalInjective(a: int, b: int)
    requires Decimal(a) == Decimal(b)
    ensures a == b
  {
    assert forall n: int :: n in [a, b] ==> (n < 0 <==> Decimal(n)[0] == '-');
    if a < 0 {
      assert DecimalNat(-a) == Decimal(a)[1..] == Decimal(b)[1..] == DecimalNat(-b);
      DecimalRoundTrip(-a);
      DecimalRoundTrip(-b);
    } else {
      DecimalRoundTrip(a);
      DecimalRoundTrip(b);
    }
  }

  /** Only zero is printed with a leading zero. */
  lemma {:induction false} NoLeadingZero(n: nat)
    ensures DecimalNat(n)[0] == '0' ==> n == 0
  {
    if n >= 10 {
      NoLeadingZero(n / 10);
    }
  }

  lemma {:induction false} DigitsArePositive(s: string)
    requires s != "" && AllDigits(s) && s[0] != '0'
    ensures ParseDigits(s) > 0
  {
    if |s| > 1 {
      DigitsArePositive(s[..|s| - 1]);
    }
  }

  /** A run of digits without leading zeros is the text of its value; so each natural number has one such text. */
  lemma {:induction false} DigitsRoundTrip(s: string)
    requires s != "" && AllDigits(s) && (s[0] == '0' ==> |s| == 1)
    ensures DecimalNat(ParseDigits(s)) == s
    decreases |s|
  {
    var init, last := s[..|s| - 1], s[|s| - 1];
    assert s == init + [last];
    var digit := last as int - '0' as int;
    if |s| == 1 {
      assert ParseDigits(init) == 0;
    } else {
      DigitsRoundTrip(init);
      DigitsArePositive(init);
      var n := ParseDigits(init);
      assert (n * 10 + digit) / 10 == n && (n * 10 + digit) % 10 == digit;
    }
  }

  // ---------- hexadecimal ----------

  predicate IsLowerHex(c: char) {
    '0' <= c <= '9' || 'a' <= c <= 'f'
  }

  predicate IsHex(c: char) {
    IsLowerHex(c) || 'A' <= c <= 'F'
  }

  function Lower(c: char): char {
    if 'A' <= c <= 'Z' then (c as int + 32) as char else c
  }

  function Nibble(c: char): (n: nat)
    requires IsHex(c)
    ensures n < 16
  {
    var l := Lower(c);
    if '0' <= l <= '9' then l as int - '0' as int else l as int - 'a' as int + 10
  }

  /** `Buffer.from(s, "hex")`: decodes pairs up to the first pair that is not hexadecimal. */
  function HexDecode(s: string): (bytes: seq<nat>)
    ensures |bytes| <= |s| / 2
  {
    if |s| >= 2 && IsHex(s[0]) && IsHex(s[1])
    then [16 * Nibble(s[0]) + Nibble(s[1])] + HexDecode(s[2..])
    else []
  }

  predicate LowerHexString(s: string) {
    forall i :: 0 <= i < |s| ==> IsLowerHex(s[i])
  }

  /** The form of `digest("hex")` for a 32-byte digest. */
  predicate CanonicalDigest(s: string) {
    |s| == 64 && LowerHexString(s)
  }

  predicate StartsWithHexPair(s: string) {
    |s| >= 2 && IsHex(s[0]) && IsHex(s[1])
  }

  /** `b` spells the digest `a` in either case, and decoding `b` stops right after it. */
  predicate SpellsDigest(a: string, b: string) {
    && |a| <= |b|
    && (forall i :: 0 <= i < |a| ==> Lower(b[i]) == a[i])
    && !StartsWithHexPair(b[|a|..])
  }

  lemma NibbleInjective(x: char, y: char)
    requires IsLowerHex(x) && IsHex(y)
    ensures Nibble(x) == Nibble(y) <==> Lower(y) == x
  {
  }

  lemma {:induction false} DecodeAgreement(a: string, b: string)
    requires LowerHexString(a) && |a| % 2 == 0
    ensures HexDecode(a) == HexDecode(b) <==> SpellsDigest(a, b)
  {
    if |a| == 0 {
      assert b[0..] == b;
    } else if !StartsWithHexPair(b) {
      assert HexDecode(b) == [];
      if |b| >= 2 {
        assert Lower(b[0]) == a[0] ==> IsHex(b[0]);
        assert Lower(b[1]) == a[1] ==> IsHex(b[1]);
      }
    } else {
      DecodeAgreement(a[2..], b[2..]);
      NibbleInjective(a[0], b[0]);
      NibbleInjective(a[1], b[1]);
      assert |a| <= |b| ==> b[2..][|a| - 2..] == b[|a|..];
      assert HexDecode(a)[1..] == HexDecode(a[2..]) && HexDecode(b)[1..] == HexDecode(b[2..]);
      assert HexDecode(a) == HexDecode(b)
          <==> HexDecode(a)[0] == HexDecode(b)[0] && HexDecode(a)[1..] == HexDecode(b)[1..];
      if SpellsDigest(a, b) {
        forall i | 0 <= i < |a[2..]| ensures Lower(b[2..][i]) == a[2..][i] {
          assert Lower(b[i + 2]) == a[i + 2];
        }
      }
      if HexDecode(a) == HexDecode(b) {
        forall i | 0 <= i < |a| ensures Lower(b[i]) == a[i] {
          if i >= 2 {
            assert Lower(b[2..][i - 2]) == a[2..][i - 2];
          }
        }
      }
    }
  }

  /** Among canonical digests decoding is injective. */
  lemma DecodeInjective(a: string, b: string)
    requires CanonicalDigest(a) && CanonicalDigest(b)
    requires HexDecode(a) == HexDecode(b)
    ensures a == b
  {
    DecodeAgreement(a, b);
    forall i | 0 <= i < 64 ensures a[i] == b[i] {
      assert IsLowerHex(b[i]);
    }
  }

  lemma {:induction false} DecodeLength(a: string)
    requires LowerHexString(a) && |a| % 2 == 0
    ensures |HexDecode(a)| == |a| / 2
  {
    if |a| > 0 {
      DecodeLength(a[2..]);
    }
  }

  // ---------- UUIDs ----------

  /** The pattern `assertUuid` accepts: 8-4-4-4-12 hexadecimal digits in either case. */
  predicate IsUuid(s: string) {
    |s| == 36 && forall i :: 0 <= i < 36 ==>
      if i == 8 || i == 13 || i == 18 || i == 23 then s[i] == '-' else IsHex(s[i])
  }

  lemma HexDigits(c: char)
    ensures IsHex(c) <==> c in "0123456789abcdefABCDEF"
  {
  }

  predicate HexRun(s: string, n: nat) {
    |s| == n && forall i :: 0 <= i < n ==> IsHex(s[i])
  }

  lemma JoinedGroups(a: string, b: string, c: string, d: string, e: string)
    requires HexRun(a, 8) && HexRun(b, 4) && HexRun(c, 4) && HexRun(d, 4) && HexRun(e, 12)
    ensures IsUuid(a + "-" + b + "-" + c + "-" + d + "-" + e)
  {
    var s := a + "-" + b + "-" + c + "-" + d + "-" + e;
    assert |s| == 36 && s[8] == '-' && s[13] == '-' && s[18] == '-' && s[23] == '-';
    forall i | 0 <= i < 36 && i != 8 && i != 13 && i != 18 && i != 23
      ensures IsHex(s[i])
    {
      hide IsHex;
      if i < 8 {
        assert s[i] == a[i];
      } else if i < 13 {
        assert s[i] == b[i - 9];
      } else if i < 18 {
        assert s[i] == c[i - 14];
      } else if i < 23 {
        assert s[i] == d[i - 19];
      } else {
        assert s[i] == e[i - 24];
      }
    }
  }

  /** The accepted texts are five runs of 8, 4, 4, 4 and 12 hexadecimal digits with hyphens between them. */
  lemma UuidGroups(s: string)
    ensures IsUuid(s) <==> exists a, b, c, d, e ::
              && HexRun(a, 8) && HexRun(b, 4) && HexRun(c, 4) && HexRun(d, 4) && HexRun(e, 12)
              && s == a + "-" + b + "-" + c + "-" + d + "-" + e
  {
    hide IsHex;
    if IsUuid(s) {
      var a, b, c, d, e := s[..8], s[9..13], s[14..18], s[19..23], s[24..];
      assert HexRun(a, 8) && HexRun(b, 4) && HexRun(c, 4) && HexRun(d, 4) && HexRun(e, 12);
      assert s == a + "-" + b + "-" + c + "-" + d + "-" + e;
    }
    if a, b, c, d, e :| && HexRun(a, 8) && HexRun(b, 4) && HexRun(c, 4) && HexRun(d, 4) && HexRun(e, 12)
                        && s == a + "-" + b + "-" + c + "-" + d + "-" + e
    {
      JoinedGroups(a, b, c, d, e);
    }
  }

  /** How the database prints a UUID column that was given the text `s`. */
  function Canon(s: string): (c: string)
    ensures |c| == |s|
    ensures forall i :: 0 <= i < |s| ==> c[i] == Lower(s[i])
  {
    seq(|s|, i requires 0 <= i < |s| => Lower(s[i]))
  }

  predicate CanonicalUuid(s: string) {
    IsUuid(s) && Canon(s) == s
  }

  lemma CanonIsCanonical(s: string)
    requires IsUuid(s)
    ensures CanonicalUuid(Canon(s))
  {
    assert Canon(Canon(s)) == Canon(s);
  }
}
