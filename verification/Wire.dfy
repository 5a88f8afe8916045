/** Bytes on the wire and what reading them yields: big-endian integers, optional
    values, and facts about sequences of bytes. */
module Wire {
  datatype Option<+T> = None | Some(value: T)

  type Byte = b: int | 0 <= b < 256
  type Octets = seq<Byte>

  type U16 = n: int | 0 <= n < 0x1_0000
  type U32 = n: int | 0 <= n < 0x1_0000_0000
  type I32 = n: int | -0x8000_0000 <= n < 0x8000_0000

  function Put16(n: U16): (s: Octets)
    ensures |s| == 2
  {
    [n / 256, n % 256]
  }

  function Get16(s: Octets): U16
    requires |s| == 2
  {
    s[0] as int * 256 + s[1]
  }

  function Put32(n: U32): (s: Octets)
    ensures |s| == 4
  {
    [n / 0x100_0000, n / 0x1_0000 % 256, n / 256 % 256, n % 256]
  }

  function Get32(s: Octets): U32
    requires |s| == 4
  {
    s[0] as int * 0x100_0000 + s[1] as int * 0x1_0000 + s[2] as int * 256 + s[3]
  }

  /** Go's conversion uint32(int32): the two's complement bit pattern. */
  function ToUnsigned(n: I32): U32 {
    if n < 0 then n + 0x1_0000_0000 else n
  }

  /** Go's conversion int32(uint32). */
  function ToSigned(n: U32): I32 {
    if n < 0x8000_0000 then n else n - 0x1_0000_0000
  }

  /** Network order: the most significant byte comes first. */
  lemma Put32RoundTrip(n: U32)
    ensures Get32(Put32(n)) == n
    ensures var s := Put32(n); n == s[0] as int * 0x100_0000 + s[1] as int * 0x1_0000 + s[2] as int * 0x100 + s[3]
  {
    var high, low := n / 0x1_0000, n % 0x1_0000;
    assert n / 0x100_0000 == high / 256;
    assert n / 256 == high * 256 + low / 256;
  }

  lemma Get32RoundTrip(s: Octets)
    requires |s| == 4
    ensures Put32(Get32(s)) == s
  {
    var n := Get32(s);
    assert n / 0x100_0000 == s[0];
    assert n / 0x1_0000 == s[0] as int * 256 + s[1];
    assert n / 256 == s[0] as int * 0x1_0000 + s[1] as int * 256 + s[2];
  }

  lemma Get16RoundTrip(s: Octets)
    requires |s| == 2
    ensures Put16(Get16(s)) == s
  {
  }

  /** An ASCII string as bytes. */
  function Text(s: string): Octets {
    seq(|s|, i requires 0 <= i < |s| => s[i] as int % 256)
  }

  /** The bytes of a transport, in order, however it cut them. */
  function Flatten(pieces: seq<Octets>): Octets {
    if pieces == [] then [] else pieces[0] + Flatten(pieces[1..])
  }

  lemma Associates<T>(a: seq<T>, b: seq<T>, c: seq<T>)
    ensures a + (b + c) == (a + b) + c
  {
  }

  lemma SplitsOff<T>(s: seq<T>, t: seq<T>)
    requires s != []
    ensures s + t == [s[0]] + (s[1..] + t)
  {
  }
}
