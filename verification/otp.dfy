/** One-time codes: how they are drawn, stored (hashed, with an expiry) and
    checked. bcrypt is modelled by an injective digest: comparing a candidate
    with a stored digest succeeds exactly when hashing the candidate gives it. */
module Otp {
  import opened Decimal

  /** `2 * 60 * 1000`: a code lives for two minutes, in milliseconds. */
  const OtpLifetimeMs: nat := 2 * 60 * 1000

  const LowestCode: nat := 100000
  const HighestCode: nat := 999999

  datatype Digest = Digest(secret: string)

  /** `bcrypt.hash`. */
  function Hash(secret: string): Digest
  {
    Digest(secret)
  }

  /** `bcrypt.compare(candidate, digest)`. */
  predicate Compare(candidate: string, digest: Digest)
  {
    Hash(candidate) == digest
  }

  /** `generateOtp`: a uniform draw scaled into [100000, 999999], floored and
      printed in decimal; the draw is given here as the integer it produces. The text
      is always six digits without a leading zero and reads back as the draw. */
  function CodeText(n: nat): (code: string)
    requires LowestCode <= n <= HighestCode
    ensures |code| == 6 && AllDigits(code) && code[0] != '0'
    ensures ValueOf(code) == n
  {
    assert Pow10(2) == 100 && Pow10(4) == 10000;
    assert Pow10(5) == 100000 && Pow10(6) == 1000000;
    ToDecimalLength(n, 6);
    ValueOfToDecimal(n);
    ToDecimal(n)
  }

  /** A code slot of a user record: the `xxxOtp` digest with its
      `xxxOtpExpires` time. The handlers always write and clear the two together. */
  datatype Slot = NoCode | Code(digest: Digest, expires: nat)

  /** What an issuing handler stores: the digest of the code and now + 2 minutes. */
  function Issue(code: string, now: nat): (slot: Slot)
    ensures slot.Code? && Compare(code, slot.digest) && slot.expires == now + OtpLifetimeMs
  {
    Code(Hash(code), now + OtpLifetimeMs)
  }

  /** The check of `registerUser` and `resetPassword`: the record is only found
      by a query on `expires > now`, then the code is compared. */
  predicate AcceptsBeforeExpiry(slot: Slot, candidate: string, now: nat)
  {
    slot.Code? && slot.expires > now && Compare(candidate, slot.digest)
  }

  /** The check of `loginUser` and `deleteAccount`: rejected when there is no
      code, the code does not match, or `expires < now`. */
  predicate AcceptsUntilExpiry(slot: Slot, candidate: string, now: nat)
  {
    slot.Code? && Compare(candidate, slot.digest) && !(slot.expires < now)
  }

  /** A freshly issued code is accepted by the strict check exactly before its
      expiry and by the lenient check up to and including it; any other
      candidate is refused by both. */
  lemma {:induction false} IssuedCodeWindow(code: string, issuedAt: nat, candidate: string, t: nat)
    ensures AcceptsBeforeExpiry(Issue(code, issuedAt), candidate, t)
        <==> candidate == code && t < issuedAt + OtpLifetimeMs
    ensures AcceptsUntilExpiry(Issue(code, issuedAt), candidate, t)
        <==> candidate == code && t <= issuedAt + OtpLifetimeMs
  {
  }

  /** The two checks differ only at the instant of expiry. */
  lemma {:induction false} ExpiryBoundary(slot: Slot, candidate: string, t: nat)
    ensures AcceptsBeforeExpiry(slot, candidate, t) ==> AcceptsUntilExpiry(slot, candidate, t)
    ensures AcceptsUntilExpiry(slot, candidate, t) && !AcceptsBeforeExpiry(slot, candidate, t)
        ==> slot.expires == t
  {
  }
}
