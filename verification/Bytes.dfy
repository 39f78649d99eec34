/** Bytes on the wire, little-endian 16-bit numbers, and the optional value. */
module Bytes {

  type byte = x: int | 0 <= x < 256
  type bytes = seq<byte>

  datatype Option<+T> = None | Some(value: T)

  /** The unsigned 16-bit number that two bytes hold, low byte first. */
  function Uint16(lo: byte, hi: byte): nat {
    lo + 256 * hi
  }

  /** The two bytes of a 16-bit number; a larger number loses its high part. */
  function Le16(n: nat): bytes {
    [n % 256, n / 256 % 256]
  }

  lemma DivideTwice(n: nat)
    ensures n % 65536 == n % 256 + 256 * (n / 256 % 256)
  {
    var q := n / 256;
    assert n == 65536 * (q / 256) + (256 * (q % 256) + n % 256);
    assert 0 <= 256 * (q % 256) + n % 256 < 65536;
  }

  lemma Le16RoundTrip(n: nat)
    ensures |Le16(n)| == 2 && Uint16(Le16(n)[0], Le16(n)[1]) == n % 65536
  {
    DivideTwice(n);
  }
}
