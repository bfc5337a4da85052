/** Conversions between numbers and bytes. */
module Octets {
  /** A byte holds every value below 256 unchanged. */
  lemma ByteRoundTrip(b: nat)
    requires b < 256
    ensures (b as bv8) as nat == b
  {
  }
}
