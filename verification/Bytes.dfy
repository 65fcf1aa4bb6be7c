/** Byte strings and big-endian integers. */
module Bytes {
  import opened Text

  type Byte = b: int | 0 <= b < 256

  /** The bytes of an ASCII string. */
  function Ascii(s: string): (r: seq<Byte>)
    ensures |r| == |s|
  {
    seq(|s|, i requires 0 <= i < |s| => (s[i] as int) % 256)
  }

  /** `binary.BigEndian.AppendUint16` of the value truncated to 16 bits. */
  function U16(n: int): (r: seq<Byte>)
    ensures |r| == 2
  {
    [n / 256 % 256, n % 256]
  }

  function U32(n: int): (r: seq<Byte>)
    ensures |r| == 4
  {
    U16(n / 65536) + U16(n)
  }

  function Value16(high: int, low: int): int {
    high * 256 + low
  }

  function Value32(a: int, b: int, c: int, d: int): int {
    65536 * Value16(a, b) + Value16(c, d)
  }

  /** Reads a value off the front of the input; the second part is what is left. */
  function Take16(b: seq<Byte>): (r: Option<(int, seq<Byte>)>)
    ensures r.Some? ==> 0 <= r.value.0 < 65536
  {
    if |b| < 2 then None else Some((Value16(b[0], b[1]), b[2..]))
  }

  function Take32(b: seq<Byte>): Option<(int, seq<Byte>)> {
    if |b| < 4 then None else Some((Value32(b[0], b[1], b[2], b[3]), b[4..]))
  }

  lemma Value16Of(n: int)
    ensures Value16(n / 256 % 256, n % 256) == n % 65536
  {
    var q := n / 256;
    var r := 256 * (q % 256) + n % 256;
    assert n == 65536 * (q / 256) + r;
    assert 0 <= r < 65536;
  }

  lemma Take16Of(n: int, rest: seq<Byte>)
    ensures Take16(U16(n) + rest) == Some((n % 65536, rest))
  {
    Value16Of(n);
    assert (U16(n) + rest)[2..] == rest;
  }

  lemma Take32Of(n: int, rest: seq<Byte>)
    requires 0 <= n < 0x1_0000_0000
    ensures Take32(U32(n) + rest) == Some((n, rest))
  {
    hide Value16;
    Value16Of(n / 65536);
    Value16Of(n);
    assert (U32(n) + rest)[4..] == rest;
  }
}
