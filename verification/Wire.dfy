/** Big-endian integers and the variable-size integers of the Type-Length-Value
    format of BOLT 1, as bytes written to a buffer and read back from a stream. */
module Wire {
  import opened AccountTypes

  type Bytes = seq<Byte>

  function Pow256(w: nat): nat {
    if w == 0 then 1 else 256 * Pow256(w - 1)
  }

  function BigEndian(n: nat, w: nat): (s: Bytes)
    ensures |s| == w
  {
    if w == 0 then [] else BigEndian(n / 256, w - 1) + [n % 256]
  }

  function FromBigEndian(s: Bytes): nat {
    if s == [] then 0 else FromBigEndian(s[..|s| - 1]) * 256 + s[|s| - 1]
  }

  lemma {:induction false} BigEndianRoundTrip(n: nat, w: nat)
    requires n < Pow256(w)
    ensures FromBigEndian(BigEndian(n, w)) == n
  {
    if w != 0 {
      BigEndianRoundTrip(n / 256, w - 1);
      var s := BigEndian(n, w);
      assert s[..|s| - 1] == BigEndian(n / 256, w - 1);
    }
  }

  lemma {:induction false} FromBigEndianBound(s: Bytes)
    ensures FromBigEndian(s) < Pow256(|s|)
  {
    if s != [] {
      FromBigEndianBound(s[..|s| - 1]);
    }
  }

  /** The bytes determine the number and the number the bytes. */
  lemma {:induction false} BigEndianOfBytes(s: Bytes)
    ensures BigEndian(FromBigEndian(s), |s|) == s
  {
    if s != [] {
      BigEndianOfBytes(s[..|s| - 1]);
      assert s == s[..|s| - 1] + [s[|s| - 1]];
      var q := FromBigEndian(s[..|s| - 1]);
      assert (q * 256 + s[|s| - 1]) / 256 == q;
    }
  }

  lemma {:induction false} PowerPositive(w: nat)
    ensures Pow256(w) > 0
  {
    if w != 0 {
      PowerPositive(w - 1);
    }
  }

  /** Taking the last byte off commutes with taking the remainder. */
  lemma LastByte(n: nat, p: nat)
    requires p > 0
    ensures n % (256 * p) / 256 == n / 256 % p && n % (256 * p) % 256 == n % 256
  {
    var q, b := n / 256, n % 256;
    var m := q % p * 256 + b;
    assert n == q / p * (256 * p) + m by {
      assert q == q / p * p + q % p;
    }
    assert 0 <= m < 256 * p;
    Remainder(n, 256 * p, q / p, m);
  }

  lemma Remainder(n: nat, d: nat, q: nat, r: nat)
    requires n == q * d + r && r < d
    ensures n % d == r
  {
    var k := n / d;
    assert n == d * k + n % d;
    if q < k {
      AtLeastOne(k - q, d);
    } else if q > k {
      AtLeastOne(q - k, d);
    }
  }

  lemma AtLeastOne(a: nat, d: nat)
    requires a > 0
    ensures a * d >= d
  {
  }

  /** The last bytes of a number are those of its remainder. */
  lemma {:induction false} LowBytes(n: nat, w: nat, v: nat)
    requires v <= w
    ensures Pow256(v) > 0 && BigEndian(n, w)[w - v..] == BigEndian(n % Pow256(v), v)
  {
    PowerPositive(v);
    if v != 0 {
      LowBytes(n / 256, w - 1, v - 1);
      LastByte(n, Pow256(v - 1));
      assert BigEndian(n, w)[w - v..] == BigEndian(n / 256, w - 1)[w - v..] + [n % 256];
    }
  }

  // ---- Keys in the order of their numbers ----

  /** The order in which a bucket keeps its keys. */
  ghost predicate BytesBefore(a: Bytes, b: Bytes)
    requires |a| == |b|
  {
    exists i :: 0 <= i < |a| && a[..i] == b[..i] && a[i] < b[i]
  }

  lemma LastByteDecides(a: Bytes, b: Bytes, x: Byte, y: Byte)
    requires |a| == |b|
    ensures BytesBefore(a + [x], b + [y]) <==> BytesBefore(a, b) || (a == b && x < y)
  {
    var c, d := a + [x], b + [y];
    if BytesBefore(c, d) {
      var i :| 0 <= i < |c| && c[..i] == d[..i] && c[i] < d[i];
      if i < |a| {
        assert a[..i] == c[..i] && b[..i] == d[..i] && a[i] == c[i] && b[i] == d[i];
      } else {
        assert a == c[..i] && b == d[..i];
      }
    }
    if BytesBefore(a, b) {
      var i :| 0 <= i < |a| && a[..i] == b[..i] && a[i] < b[i];
      assert c[..i] == a[..i] && d[..i] == b[..i] && c[i] == a[i] && d[i] == b[i];
    }
    if a == b && x < y {
      assert c[..|a|] == a && d[..|a|] == b && c[|a|] == x && d[|a|] == y;
    }
  }

  /** A cursor over big-endian keys visits them in the order of their numbers. */
  lemma {:induction false} BigEndianKeepsOrder(n: nat, m: nat, w: nat)
    requires n < Pow256(w) && m < Pow256(w)
    ensures n < m <==> BytesBefore(BigEndian(n, w), BigEndian(m, w))
  {
    if w != 0 {
      var a, b := n / 256, m / 256;
      ByteOrder(n, m, Pow256(w - 1));
      BigEndianKeepsOrder(a, b, w - 1);
      BigEndianRoundTrip(a, w - 1);
      BigEndianRoundTrip(b, w - 1);
      LastByteDecides(BigEndian(a, w - 1), BigEndian(b, w - 1), n % 256, m % 256);
    }
  }

  lemma ByteOrder(n: nat, m: nat, p: nat)
    requires n < 256 * p && m < 256 * p
    ensures n / 256 < p && m / 256 < p
    ensures n < m <==> n / 256 < m / 256 || (n / 256 == m / 256 && n % 256 < m % 256)
  {
  }

  lemma Widths()
    ensures Pow256(2) == 0x1_0000 && Pow256(4) == 0x1_0000_0000 && Pow256(8) == TWO_64
  {
    assert Pow256(3) == 256 * Pow256(2);
    assert Pow256(4) == 256 * Pow256(3);
    assert Pow256(5) == 256 * Pow256(4);
    assert Pow256(6) == 256 * Pow256(5);
    assert Pow256(7) == 256 * Pow256(6);
    assert Pow256(8) == 256 * Pow256(7);
  }

  /** A value read and what is left of the stream. */
  datatype Read<+T> = Bad | Got(value: T, rest: Bytes)

  function ReadBytes(s: Bytes, n: nat): Read<Bytes> {
    if |s| < n then Bad else Got(s[..n], s[n..])
  }

  function ReadUint64(s: Bytes): (r: Read<Uint64>)
    ensures r.Got? ==> |r.rest| == |s| - 8
  {
    if |s| < 8 then Bad
    else
      FromBigEndianBound(s[..8]);
      Widths();
      Got(FromBigEndian(s[..8]), s[8..])
  }

  lemma ReadBytesOfAppended(b: Bytes, rest: Bytes)
    ensures ReadBytes(b + rest, |b|) == Got(b, rest)
  {
    assert (b + rest)[..|b|] == b && (b + rest)[|b|..] == rest;
  }

  lemma Uint64RoundTrip(n: Uint64, rest: Bytes)
    ensures ReadUint64(BigEndian(n, 8) + rest) == Got(n, rest)
  {
    Widths();
    BigEndianRoundTrip(n, 8);
    var b := BigEndian(n, 8);
    assert (b + rest)[..8] == b && (b + rest)[8..] == rest;
  }

  function WriteVarInt(n: Uint64): (s: Bytes)
    ensures |s| > 0
  {
    if n < 0xfd then [n]
    else if n <= 0xffff then [0xfd] + BigEndian(n, 2)
    else if n <= 0xffff_ffff then [0xfe] + BigEndian(n, 4)
    else [0xff] + BigEndian(n, 8)
  }

  /** Only the shortest encoding is accepted. */
  function ReadVarInt(s: Bytes): (r: Read<Uint64>)
    ensures r.Got? ==> |r.rest| < |s|
  {
    if s == [] then Bad
    else if s[0] < 0xfd then Got(s[0], s[1..])
    else if s[0] == 0xfd then ReadLong(s, 2, 0xfd)
    else if s[0] == 0xfe then ReadLong(s, 4, 0x1_0000)
    else ReadLong(s, 8, 0x1_0000_0000)
  }

  function ReadLong(s: Bytes, w: nat, least: nat): (r: Read<Uint64>)
    requires s != [] && w <= 8
    ensures r.Got? ==> |r.rest| < |s|
  {
    if |s| < 1 + w then Bad
    else
      var n := FromBigEndian(s[1..1 + w]);
      if n < least || n >= TWO_64 then Bad else Got(n, s[1 + w..])
  }

  lemma ReadLongOfWritten(d: Byte, n: Uint64, w: nat, least: nat, rest: Bytes)
    requires n < Pow256(w) && least <= n && w <= 8
    ensures ReadLong([d] + BigEndian(n, w) + rest, w, least) == Got(n, rest)
  {
    BigEndianRoundTrip(n, w);
    var s := [d] + BigEndian(n, w) + rest;
    assert s[1..1 + w] == BigEndian(n, w) && s[1 + w..] == rest;
  }

  lemma VarIntRoundTrip(n: Uint64, rest: Bytes)
    ensures ReadVarInt(WriteVarInt(n) + rest) == Got(n, rest)
  {
    Widths();
    if n < 0xfd {
      assert ([n] + rest)[1..] == rest;
    } else if n <= 0xffff {
      ReadLongOfWritten(0xfd, n, 2, 0xfd, rest);
    } else if n <= 0xffff_ffff {
      ReadLongOfWritten(0xfe, n, 4, 0x1_0000, rest);
    } else {
      ReadLongOfWritten(0xff, n, 8, 0x1_0000_0000, rest);
    }
  }

  /** The encodings that BOLT 1 gives at the boundaries of each length. */
  lemma ShortVarIntSamples()
    ensures WriteVarInt(0) == [0x00] && WriteVarInt(252) == [0xfc]
    ensures WriteVarInt(253) == [0xfd, 0x00, 0xfd] && WriteVarInt(65535) == [0xfd, 0xff, 0xff]
  {
    assert BigEndian(0, 1) == [0x00];
    assert BigEndian(255, 1) == [0xff];
    assert BigEndian(253, 2) == [0x00, 0xfd];
    assert BigEndian(65535, 2) == [0xff, 0xff];
  }

  lemma LongVarIntSamples()
    ensures WriteVarInt(0x1_0000) == [0xfe, 0x00, 0x01, 0x00, 0x00]
    ensures WriteVarInt(0x1_0000_0000) == [0xff, 0x00, 0x00, 0x00, 0x01, 0x00, 0x00, 0x00, 0x00]
  {
    One(2);
    One(4);
    assert BigEndian(0x100, 3) == [0x00, 0x01, 0x00];
    assert BigEndian(0x1_0000, 4) == [0x00, 0x01, 0x00, 0x00];
    assert BigEndian(0x100, 5) == [0x00, 0x00, 0x00, 0x01, 0x00];
    assert BigEndian(0x1_0000, 6) == [0x00, 0x00, 0x00, 0x01, 0x00, 0x00];
    assert BigEndian(0x100_0000, 7) == [0x00, 0x00, 0x00, 0x01, 0x00, 0x00, 0x00];
    assert BigEndian(0x1_0000_0000, 8) == [0x00, 0x00, 0x00, 0x01, 0x00, 0x00, 0x00, 0x00];
  }

  /** One is zeros and a last byte. */
  lemma One(w: nat)
    requires w > 0
    ensures BigEndian(1, w) == seq(w - 1, _ => 0) + [1]
  {
    Zeros(w - 1);
  }

  lemma {:induction false} Zeros(w: nat)
    ensures BigEndian(0, w) == seq(w, _ => 0)
  {
    if w != 0 {
      Zeros(w - 1);
    }
  }
}
