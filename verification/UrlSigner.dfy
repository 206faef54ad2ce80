/** Signing and verifying download links: HMAC over `fileId.expiresAt`, expiry in whole seconds. */
module UrlSigner {
  import opened Wrappers
  import opened Codec

  datatype SignedUrl = SignedUrl(fileId: string, expires: string, expiresAt: int, signature: string)

  datatype Refusal = InvalidClaim | MissingParameters | Expired | InvalidSignature

  datatype Verification = Accepted(fileId: string, expiresAt: int) | Refused(reason: Refusal)

  // Integers from here on are printed in exponent notation by ECMAScript.
  const EXPONENT_THRESHOLD: int := 1_000_000_000_000_000_000_000
  const MAX_SAFE_INTEGER: int := 9_007_199_254_740_991

  /** What the signer takes from its platform: the keyed hash, `Number(text)` restricted to
      integral results, and the two halves around the "e" of a number printed in exponent notation. */
  datatype Signer = Signer(
    mac: string -> string,
    toInteger: string -> Option<int>,
    mantissa: int -> string,
    exponent: int -> string)
  {
    /** The keyed hash prints 32 bytes as lower-case hexadecimal. */
    ghost predicate HashShaped() {
      forall payload :: CanonicalDigest(mac(payload))
    }

    /** `Number` reads a plain run of digits in the safe range as the number it denotes. */
    ghost predicate ReadsDigits() {
      forall s | s != "" && AllDigits(s) && ParseDigits(s) <= MAX_SAFE_INTEGER :: toInteger(s) == Some(ParseDigits(s))
    }

    function NumberText(n: int): string {
      if -EXPONENT_THRESHOLD < n < EXPONENT_THRESHOLD then Decimal(n)
      else mantissa(n) + "e" + exponent(n)
    }

    function Payload(fileId: string, expiresAt: int): string {
      fileId + "." + NumberText(expiresAt)
    }

    function ComputeSignature(fileId: string, expiresAt: int): string {
      mac(Payload(fileId, expiresAt))
    }

    function Sign(fileId: string, ttlSeconds: int, nowMs: int): SignedUrl {
      var expiresAt := nowMs / 1000 + ttlSeconds;
      SignedUrl(fileId, NumberText(expiresAt), expiresAt, ComputeSignature(fileId, expiresAt))
    }

    function Verify(fileId: string, expires: string, signature: string, nowMs: int): Verification {
      match toInteger(expires)
      case None => Refused(InvalidClaim)
      case Some(expiresAt) =>
        if fileId == "" || signature == "" then Refused(MissingParameters)
        else if expiresAt < nowMs / 1000 then Refused(Expired)
        else if !HexEqual(ComputeSignature(fileId, expiresAt), signature) then Refused(InvalidSignature)
        else Accepted(fileId, expiresAt)
    }
  }

  predicate HexEqual(a: string, b: string) {
    var bufA := HexDecode(a);
    var bufB := HexDecode(b);
    |bufA| != 0 && |bufA| == |bufB| && bufA == bufB
  }

  /** Two different payloads with the same keyed hash. */
  ghost predicate Collision(s: Signer, p: string, q: string) {
    p != q && s.mac(p) == s.mac(q)
  }

  /** Against a digest, `HexEqual` accepts exactly the texts that spell it, in either case,
      with anything after it that does not begin with another hexadecimal pair. */
  lemma HexEqualMeaning(a: string, b: string)
    requires CanonicalDigest(a)
    ensures HexEqual(a, b) <==> SpellsDigest(a, b)
  {
    DecodeAgreement(a, b);
    DecodeLength(a);
  }

  /** Between digests it is equality. */
  lemma HexEqualCanonical(a: string, b: string)
    requires CanonicalDigest(a) && CanonicalDigest(b)
    ensures HexEqual(a, b) <==> a == b
  {
    DecodeLength(a);
    if HexEqual(a, b) {
      DecodeInjective(a, b);
    }
  }

  /** Exponent notation is recognisable by its marker. */
  lemma NotationMarker(s: Signer, e: int)
    ensures 'e' in s.NumberText(e) <==> !(-EXPONENT_THRESHOLD < e < EXPONENT_THRESHOLD)
  {
    if -EXPONENT_THRESHOLD < e < EXPONENT_THRESHOLD {
      var text := Decimal(e);
      assert forall i :: 0 <= i < |text| ==> text[i] == '-' || IsDigit(text[i]);
    } else {
      assert s.NumberText(e)[|s.mantissa(e)|] == 'e';
    }
  }

  lemma NumberTextInjective(s: Signer, e: int, n: int)
    requires -EXPONENT_THRESHOLD < n < EXPONENT_THRESHOLD
    requires s.NumberText(e) == s.NumberText(n)
    ensures e == n
  {
    NotationMarker(s, e);
    NotationMarker(s, n);
    DecimalInjective(e, n);
  }

  /** The signed text determines the file and the expiry. */
  lemma PayloadInjective(s: Signer, f: string, e: int, g: string, n: int)
    requires |f| == |g| && -EXPONENT_THRESHOLD < n < EXPONENT_THRESHOLD
    requires s.Payload(f, e) == s.Payload(g, n)
    ensures f == g && e == n
  {
    var p := s.Payload(f, e);
    assert p[..|f|] == f && p[..|f|] == g;
    assert p[|f| + 1..] == s.NumberText(e) && p[|f| + 1..] == s.NumberText(n);
    NumberTextInjective(s, e, n);
  }

  /** What is accepted: a claim whose expiry reads as an integer and is not past, which names a file, and whose
      signature spells the keyed hash of file and expiry joined by a dot. Otherwise the reason is the first of these
      that fails. */
  lemma VerifyMeaning(s: Signer, fileId: string, expires: string, signature: string, nowMs: int)
    requires s.HashShaped()
    ensures var verdict, e := s.Verify(fileId, expires, signature, nowMs), s.toInteger(expires);
            && (verdict.Accepted? <==>
                  && e.Some? && fileId != "" && signature != "" && nowMs < 1000 * (e.value + 1)
                  && SpellsDigest(s.mac(fileId + "." + s.NumberText(e.value)), signature))
            && (verdict.Accepted? ==> verdict == Accepted(fileId, e.value))
            && (verdict.Refused? ==>
                  verdict.reason == if e.None? then InvalidClaim
                                    else if fileId == "" || signature == "" then MissingParameters
                                    else if nowMs >= 1000 * (e.value + 1) then Expired
                                    else InvalidSignature)
  {
    hide HexEqual, SpellsDigest, CanonicalDigest;
    var e := s.toInteger(expires);
    if e.Some? {
      HexEqualMeaning(s.ComputeSignature(fileId, e.value), signature);
    }
  }

  /** A signed link is accepted exactly until the end of its expiry second. */
  lemma AcceptedUntilExpiry(s: Signer, fileId: string, ttlSeconds: nat, nowMs: nat, t: int)
    requires s.HashShaped() && s.ReadsDigits() && fileId != ""
    requires nowMs / 1000 + ttlSeconds <= MAX_SAFE_INTEGER
    ensures var link := s.Sign(fileId, ttlSeconds, nowMs);
            s.Verify(fileId, link.expires, link.signature, t)
            == if t < 1000 * (nowMs / 1000 + ttlSeconds + 1) then Accepted(fileId, link.expiresAt) else Refused(Expired)
  {
    var link := s.Sign(fileId, ttlSeconds, nowMs);
    DecimalRoundTrip(link.expiresAt);
    assert s.toInteger(link.expires) == Some(link.expiresAt);
    assert CanonicalDigest(link.signature);
    HexEqualCanonical(link.signature, link.signature);
  }

  /** So it lives at least `ttl` seconds from signing and less than one second more, and once expired stays expired. */
  lemma LinkLifetime(s: Signer, fileId: string, ttlSeconds: nat, nowMs: nat, t: int, later: int)
    requires s.HashShaped() && s.ReadsDigits() && fileId != ""
    requires nowMs / 1000 + ttlSeconds <= MAX_SAFE_INTEGER
    requires nowMs <= t <= later
    ensures var link := s.Sign(fileId, ttlSeconds, nowMs);
            var first := s.Verify(fileId, link.expires, link.signature, t);
            && (t <= nowMs + 1000 * ttlSeconds ==> first == Accepted(fileId, link.expiresAt))
            && (t >= nowMs + 1000 * (ttlSeconds + 1) ==> first == Refused(Expired))
            && (first == Refused(Expired) ==> s.Verify(fileId, link.expires, link.signature, later) == Refused(Expired))
  {
    AcceptedUntilExpiry(s, fileId, ttlSeconds, nowMs, t);
    AcceptedUntilExpiry(s, fileId, ttlSeconds, nowMs, later);
  }

  /** A claim that verifies with the stored signature of another payload names that payload, unless the keyed hash
      collides. */
  lemma ClaimMatchesIssue(s: Signer, f: string, e: int, g: string, n: int)
    requires s.HashShaped()
    requires |f| == |g| && -EXPONENT_THRESHOLD < n < EXPONENT_THRESHOLD
    requires HexEqual(s.ComputeSignature(f, e), s.ComputeSignature(g, n))
    ensures (f == g && e == n) || Collision(s, s.Payload(f, e), s.Payload(g, n))
  {
    HexEqualCanonical(s.ComputeSignature(f, e), s.ComputeSignature(g, n));
    if s.Payload(f, e) == s.Payload(g, n) {
      PayloadInjective(s, f, e, g, n);
    }
  }
}
