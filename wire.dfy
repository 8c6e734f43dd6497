/** Byte order on the wire: little- and big-endian integers of a fixed width,
    read and written as explicit byte sequences (no host byte swaps). */
module Wire {

  newtype byte = x: int | 0 <= x < 256

  datatype Order = LittleEndian | BigEndian

  /** 256^n: the number of distinct values an n-byte field holds. */
  function Pow256(n: nat): (r: nat)
    ensures r >= 1
    ensures n >= 1 ==> r >= 256
  {
    if n == 0 then 1 else 256 * Pow256(n - 1)
  }

  /** The value of bytes stored least significant first. */
  function FromLE(bs: seq<byte>): nat
  {
    if |bs| == 0 then 0 else bs[0] as nat + 256 * FromLE(bs[1..])
  }

  /** The n bytes of v, least significant first (v reduced modulo 256^n). */
  function ToLE(v: nat, n: nat): (bs: seq<byte>)
    ensures |bs| == n
  {
    if n == 0 then [] else [(v % 256) as byte] + ToLE(v / 256, n - 1)
  }

  function Reverse(bs: seq<byte>): (r: seq<byte>)
    ensures |r| == |bs|
  {
    if |bs| == 0 then [] else Reverse(bs[1..]) + [bs[0]]
  }

  /** The value of bytes stored most significant first: the same bytes as
      FromLE, taken in the opposite order. */
  function FromBE(bs: seq<byte>): nat
  {
    FromLE(Reverse(bs))
  }

  function ToBE(v: nat, n: nat): (bs: seq<byte>)
    ensures |bs| == n
  {
    Reverse(ToLE(v, n))
  }

  function Decode(order: Order, bs: seq<byte>): nat
  {
    match order
    case LittleEndian => FromLE(bs)
    case BigEndian => FromBE(bs)
  }

  function Encode(order: Order, v: nat, n: nat): (bs: seq<byte>)
    ensures |bs| == n
  {
    match order
    case LittleEndian => ToLE(v, n)
    case BigEndian => ToBE(v, n)
  }

  lemma {:induction false} FromLEBound(bs: seq<byte>)
    ensures FromLE(bs) < Pow256(|bs|)
  {
    if |bs| > 0 {
      FromLEBound(bs[1..]);
    }
  }

  lemma {:induction false} ReverseReverse(bs: seq<byte>)
    ensures Reverse(Reverse(bs)) == bs
  {
    if |bs| > 0 {
      ReverseReverse(bs[1..]);
      ReverseAppendOne(Reverse(bs[1..]), bs[0]);
      assert Reverse(Reverse(bs[1..]) + [bs[0]]) == [bs[0]] + Reverse(Reverse(bs[1..]));
      assert [bs[0]] + bs[1..] == bs;
    }
  }

  lemma {:induction false} ReverseAppendOne(bs: seq<byte>, b: byte)
    ensures Reverse(bs + [b]) == [b] + Reverse(bs)
  {
    if |bs| == 0 {
      assert bs + [b] == [b];
    } else {
      assert (bs + [b])[1..] == bs[1..] + [b];
      ReverseAppendOne(bs[1..], b);
    }
  }

  /** Writing v in n little-endian bytes and reading them back yields v
      whenever v fits in n bytes. */
  lemma {:induction false} LERoundTrip(v: nat, n: nat)
    requires v < Pow256(n)
    ensures FromLE(ToLE(v, n)) == v
  {
    if n > 0 {
      LERoundTrip(v / 256, n - 1);
    }
  }

  /** Reading n little-endian bytes and writing the value back reproduces the bytes. */
  lemma {:induction false} LEBytesRoundTrip(bs: seq<byte>)
    ensures ToLE(FromLE(bs), |bs|) == bs
  {
    if |bs| > 0 {
      FromLEBound(bs[1..]);
      var v := FromLE(bs);
      assert v % 256 == bs[0] as nat;
      assert v / 256 == FromLE(bs[1..]);
      LEBytesRoundTrip(bs[1..]);
    }
  }

  lemma {:induction false} BERoundTrip(v: nat, n: nat)
    requires v < Pow256(n)
    ensures FromBE(ToBE(v, n)) == v
  {
    ReverseReverse(ToLE(v, n));
    LERoundTrip(v, n);
  }

  /** Writing a value with either byte order and reading it back with the
      same order and width returns the value. */
  lemma {:induction false} RoundTrip(order: Order, v: nat, n: nat)
    requires v < Pow256(n)
    ensures Decode(order, Encode(order, v, n)) == v
  {
    match order
    case LittleEndian => LERoundTrip(v, n);
    case BigEndian => BERoundTrip(v, n);
  }

  lemma {:induction false} DecodeBound(order: Order, bs: seq<byte>)
    ensures Decode(order, bs) < Pow256(|bs|)
  {
    match order
    case LittleEndian => FromLEBound(bs);
    case BigEndian => FromLEBound(Reverse(bs));
  }

  /** The four ASCII characters of a magic tag read as a little-endian 32-bit
      value (LOAD_LE32 of the string). */
  function Tag(s: string): (v: nat)
    requires |s| == 4 && forall i :: 0 <= i < 4 ==> s[i] as int < 256
  {
    FromLE([s[0] as int as byte, s[1] as int as byte, s[2] as int as byte, s[3] as int as byte])
  }

  // ---------------------------------------------------------------------
  // 32-bit integers

  const Two32: nat := 0x1_0000_0000

  /** The int a 32-bit pattern denotes when it is stored in a signed int
      (two's complement), as happens when nextLE<Uint32>() or
      nextBE<Uint32>() is assigned to an int field. */
  function Signed32(x: nat): (i: int)
    ensures -0x8000_0000 <= i < 0x8000_0000
    ensures Pattern32(i) == x % Two32
  {
    var low := x % Two32;
    if low < 0x8000_0000 then low else low - Two32
  }

  /** The 32-bit pattern of an int, as writeLE<Uint32>(i) stores it. */
  function Pattern32(i: int): (x: nat)
    ensures x < Two32
  {
    i % Two32
  }

  /** Storing an int in 32 bits and reading it back as signed returns it
      whenever it is in the signed 32-bit range. */
  lemma {:induction false} SignedPattern(i: int)
    requires -0x8000_0000 <= i < 0x8000_0000
    ensures Signed32(Pattern32(i)) == i
  {
  }
}
