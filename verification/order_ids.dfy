/** Order identifiers: the prefix `ord_` followed by the first twelve hex digits of a random UUID. */
module OrderIds {

  const Prefix: string := "ord_"

  /** Number of UUID hex digits kept in an order id. */
  const SuffixLength: nat := 12

  predicate IsLowerHexDigit(c: char) {
    ('0' <= c <= '9') || ('a' <= c <= 'f')
  }

  predicate IsLowerHex(s: string) {
    forall k :: 0 <= k < |s| ==> IsLowerHexDigit(s[k])
  }

  /** The `hex` rendering of a version-4 UUID: 32 lower-case hex digits. It stands in for the
      random number generator, which the model takes as a parameter. */
  type UuidHex = s: string | |s| == 32 && IsLowerHex(s)
    witness "00000000000000000000000000000000"

  /** Shape of every id the server hands out. */
  predicate IsOrderId(id: string) {
    && |id| == |Prefix| + SuffixLength
    && id[..|Prefix|] == Prefix
    && IsLowerHex(id[|Prefix|..])
  }

  /** A fresh order id built from a UUID. */
  function NewOrderId(uuid: UuidHex): (id: string)
    ensures IsOrderId(id)
    ensures |id| == 16
    ensures id[|Prefix|..] == uuid[..SuffixLength]
  {
    Prefix + uuid[..SuffixLength]
  }

  /** The random part of an order id; the inverse of `NewOrderId` up to the discarded UUID digits. */
  function Suffix(id: string): (s: string)
    requires IsOrderId(id)
    ensures |s| == SuffixLength && IsLowerHex(s)
    ensures Prefix + s == id
  {
    id[|Prefix|..]
  }

  /** Two UUIDs give the same order id exactly when they agree on their first twelve digits:
      the id keeps 48 bits of randomness and nothing more. */
  lemma NewOrderIdInjective(u1: UuidHex, u2: UuidHex)
    ensures NewOrderId(u1) == NewOrderId(u2) <==> u1[..SuffixLength] == u2[..SuffixLength]
  {
    if NewOrderId(u1) == NewOrderId(u2) {
      assert NewOrderId(u1)[|Prefix|..] == NewOrderId(u2)[|Prefix|..];
    }
  }

  /** Stripping the prefix from a fresh id gives back the UUID digits it was cut from. */
  lemma SuffixOfNewOrderId(uuid: UuidHex)
    ensures Suffix(NewOrderId(uuid)) == uuid[..SuffixLength]
  {
  }
}
