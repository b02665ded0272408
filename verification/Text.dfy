/** Hexadecimal and decimal text, and channel points. A string is a string of bytes. */
module Text {
  import opened AccountTypes
  import opened Wire

  type Uint32 = n: int | 0 <= n < TWO_32

  // ---- Hexadecimal ----

  function HexChar(n: nat): char
    requires n < 16
  {
    if n < 10 then '0' + n as char else 'a' + (n - 10) as char
  }

  function HexValue(c: char): (r: Option<nat>)
    ensures r.Some? ==> r.value < 16
  {
    if '0' <= c <= '9' then Some(c as int - '0' as int)
    else if 'a' <= c <= 'f' then Some(c as int - 'a' as int + 10)
    else if 'A' <= c <= 'F' then Some(c as int - 'A' as int + 10)
    else None
  }

  function HexEncode(bs: Bytes): string {
    if bs == [] then "" else [HexChar(bs[0] / 16), HexChar(bs[0] % 16)] + HexEncode(bs[1..])
  }

  function HexDecode(s: string): Option<Bytes> {
    if s == "" then Some([])
    else if |s| == 1 || HexValue(s[0]).None? || HexValue(s[1]).None? then None
    else
      var rest := HexDecode(s[2..]);
      if rest.None? then None else Some([HexValue(s[0]).value * 16 + HexValue(s[1]).value] + rest.value)
  }

  lemma HexDigit(n: nat)
    requires n < 16
    ensures HexValue(HexChar(n)) == Some(n)
  {
  }

  lemma LowerDigit(c: char)
    requires '0' <= c <= '9' || 'a' <= c <= 'f'
    ensures HexValue(c).Some? && HexChar(HexValue(c).value) == c
  {
  }

  lemma {:induction false} HexRoundTrip(bs: Bytes)
    ensures HexDecode(HexEncode(bs)) == Some(bs) && |HexEncode(bs)| == 2 * |bs|
  {
    if bs != [] {
      HexRoundTrip(bs[1..]);
      HexDigit(bs[0] / 16);
      HexDigit(bs[0] % 16);
      var s := HexEncode(bs);
      assert s[0] == HexChar(bs[0] / 16) && s[1] == HexChar(bs[0] % 16) && s[2..] == HexEncode(bs[1..]);
      assert [bs[0]] + bs[1..] == bs;
    }
  }

  /** Text of digits and the letters a to f. */
  predicate LowerHex(s: string) {
    forall i :: 0 <= i < |s| ==> '0' <= s[i] <= '9' || 'a' <= s[i] <= 'f'
  }

  /** Lower-case text of even length is what its own bytes encode to. */
  lemma {:induction false} LowerHexIsCanonical(s: string)
    requires LowerHex(s) && |s| % 2 == 0
    ensures HexDecode(s).Some? && HexEncode(HexDecode(s).value) == s && |HexDecode(s).value| == |s| / 2
  {
    if s != "" {
      LowerHexIsCanonical(s[2..]);
      LowerDigit(s[0]);
      LowerDigit(s[1]);
      var hi, lo := HexValue(s[0]).value, HexValue(s[1]).value;
      assert (hi * 16 + lo) / 16 == hi && (hi * 16 + lo) % 16 == lo;
      assert s == [s[0], s[1]] + s[2..];
    }
  }

  /** The high half of a byte is written first. */
  lemma HexSample()
    ensures HexEncode([0x1f, 0xa0]) == "1fa0"
  {
    assert [0x1f, 0xa0][1..] == [0xa0];
    assert HexEncode([0xa0]) == "a0";
  }

  lemma {:induction false} HexIsLower(bs: Bytes)
    ensures LowerHex(HexEncode(bs))
  {
    if bs != [] {
      HexIsLower(bs[1..]);
    }
  }

  predicate IsHexDigit(c: char) {
    '0' <= c <= '9' || 'a' <= c <= 'f' || 'A' <= c <= 'F'
  }

  /** Text of hexadecimal digits in either case. */
  predicate AnyHex(s: string) {
    forall i :: 0 <= i < |s| ==> IsHexDigit(s[i])
  }

  /** Exactly the texts with an even number of digits, in either case, decode. */
  lemma {:induction false} HexDecodesIff(s: string)
    ensures HexDecode(s).Some? <==> |s| % 2 == 0 && AnyHex(s)
  {
    if |s| >= 2 {
      HexDecodesIff(s[2..]);
      FirstTwoDigits(s);
      HexValueIff(s[0]);
      HexValueIff(s[1]);
    } else if |s| == 1 {
      assert |s| % 2 == 1;
    }
  }

  lemma FirstTwoDigits(s: string)
    requires |s| >= 2
    ensures AnyHex(s) <==> IsHexDigit(s[0]) && IsHexDigit(s[1]) && AnyHex(s[2..])
    ensures |s| % 2 == |s[2..]| % 2
  {
    assert s == [s[0], s[1]] + s[2..];
    assert |s[2..]| == |s| - 2;
  }

  lemma HexValueIff(c: char)
    ensures HexValue(c).Some? <==> IsHexDigit(c)
  {
  }

  function Uint64ToStr(i: Uint64): string {
    HexEncode(BigEndian(i, 8))
  }

  /** The first eight bytes; fewer are an error. */
  function StrToUint64(s: string): (r: Option<Uint64>) {
    var b := HexDecode(s);
    if b.None? || |b.value| < 8 then None
    else
      FromBigEndianBound(b.value[..8]);
      Widths();
      Some(FromBigEndian(b.value[..8]))
  }

  lemma Uint64TextRoundTrip(i: Uint64)
    ensures StrToUint64(Uint64ToStr(i)) == Some(i) && Uint64ToStr(i) != ""
  {
    HexRoundTrip(BigEndian(i, 8));
    Widths();
    BigEndianRoundTrip(i, 8);
    assert BigEndian(i, 8)[..8] == BigEndian(i, 8);
  }

  /** Sixteen lower-case digits are what their number is written as. */
  lemma SixteenDigits(s: string)
    requires LowerHex(s) && |s| == 16
    ensures StrToUint64(s).Some? && Uint64ToStr(StrToUint64(s).value) == s
  {
    LowerHexIsCanonical(s);
    var b := HexDecode(s).value;
    assert b[..8] == b;
    BigEndianOfBytes(b);
  }

  // ---- Decimal ----

  function Digit(n: nat): char
    requires n < 10
  {
    '0' + n as char
  }

  predicate IsDigit(c: char) {
    '0' <= c <= '9'
  }

  function Decimal(n: nat): (s: string)
    ensures s != ""
  {
    if n < 10 then [Digit(n)] else Decimal(n / 10) + [Digit(n % 10)]
  }

  predicate Digits(s: string) {
    forall i :: 0 <= i < |s| ==> IsDigit(s[i])
  }

  function DigitsValue(s: string): nat
    requires Digits(s)
  {
    if s == "" then 0 else DigitsValue(s[..|s| - 1]) * 10 + (s[|s| - 1] as int - '0' as int)
  }

  /** Reads an optional sign and digits; text without digits, other characters and
      numbers that do not fit 64 bits are refused. */
  function ParseInt(s: string): Option<Int64> {
    var signed := s != "" && (s[0] == '-' || s[0] == '+');
    var digits := if signed then s[1..] else s;
    if digits == "" || !Digits(digits) then None
    else
      var m: int := DigitsValue(digits);
      var n := if signed && s[0] == '-' then 0 - m else m;
      if -TWO_63 <= n < TWO_63 then Some(n) else None
  }

  lemma {:induction false} DecimalRoundTrip(n: nat)
    ensures Digits(Decimal(n)) && DigitsValue(Decimal(n)) == n
  {
    var s := Decimal(n);
    if n < 10 {
      assert s[..|s| - 1] == "";
    } else {
      DecimalRoundTrip(n / 10);
      assert s[..|s| - 1] == Decimal(n / 10);
    }
  }

  /** The leading digit is written first. */
  lemma DecimalSample()
    ensures Decimal(120) == "120"
  {
    assert Decimal(12) == "12";
  }

  function Pow10(k: nat): nat {
    if k == 0 then 1 else 10 * Pow10(k - 1)
  }

  /** A number has more than k digits exactly from 10^k on. */
  lemma {:induction false} DecimalLength(n: nat, k: nat)
    requires k > 0
    ensures |Decimal(n)| > k <==> n >= Pow10(k)
  {
    if k == 1 {
      assert Pow10(1) == 10;
      if n >= 10 {
        assert |Decimal(n)| == |Decimal(n / 10)| + 1;
      }
    } else if n >= 10 {
      DecimalLength(n / 10, k - 1);
      TenTimes(n, Pow10(k - 1));
    } else {
      Pow10AtLeast(k);
    }
  }

  lemma TenTimes(n: nat, p: nat)
    ensures n / 10 >= p <==> n >= 10 * p
  {
  }

  lemma {:induction false} Pow10AtLeast(k: nat)
    requires k > 0
    ensures Pow10(k) >= 10
  {
    if k > 1 {
      Pow10AtLeast(k - 1);
    }
  }

  /** A written number reads back exactly if it fits a signed word. */
  lemma DecimalParsesIff(n: nat)
    ensures ParseInt(Decimal(n)) == if n < 0x8000_0000_0000_0000 then Some(n) else None
  {
    DecimalRoundTrip(n);
    assert IsDigit(Decimal(n)[0]);
  }

  // ---- Channel points ----

  const TXID_LEN: nat := 64

  /** The parts of a text between colons. */
  function Split(s: string): (parts: seq<string>)
    ensures parts != []
  {
    if s == "" then [""]
    else
      var rest := Split(s[1..]);
      if s[0] == ':' then [""] + rest else [[s[0]] + rest[0]] + rest[1..]
  }

  predicate NoColon(s: string) {
    forall i :: 0 <= i < |s| ==> s[i] != ':'
  }

  lemma {:induction false} SplitOne(s: string)
    requires NoColon(s)
    ensures Split(s) == [s]
  {
    if s != "" {
      SplitOne(s[1..]);
      assert [s[0]] + s[1..] == s;
    }
  }

  lemma {:induction false} SplitTwo(a: string, b: string)
    requires NoColon(a) && NoColon(b)
    ensures Split(a + ":" + b) == [a, b]
  {
    var s := a + ":" + b;
    if a == "" {
      assert s[1..] == b;
      SplitOne(b);
    } else {
      assert s[1..] == a[1..] + ":" + b;
      SplitTwo(a[1..], b);
      assert [a[0]] + a[1..] == a;
    }
  }

  datatype ChanPoint = ChanPoint(txid: string, index: Uint32)

  function FormatPoint(p: ChanPoint): string {
    p.txid + ":" + Decimal(p.index)
  }

  /** The index is cut down to 32 bits. */
  function DecodeChannelPoint(cp: string): Option<ChanPoint> {
    var parts := Split(cp);
    if |parts| != 2 then None
    else
      var index := ParseInt(parts[1]);
      if index.None? || |parts[0]| != TXID_LEN then None
      else Some(ChanPoint(parts[0], index.value % TWO_32))
  }

  predicate GoodTxid(txid: string) {
    |txid| == TXID_LEN && NoColon(txid)
  }

  lemma {:induction false} SplitCounts(a: string, b: string)
    ensures |Split(a + ":" + b)| == |Split(a)| + |Split(b)|
    ensures |Split(a)| == 1 <==> NoColon(a)
  {
    var s := a + ":" + b;
    if a == "" {
      assert s[1..] == b;
    } else {
      assert s[1..] == a[1..] + ":" + b;
      SplitCounts(a[1..], b);
      assert NoColon(a) <==> a[0] != ':' && NoColon(a[1..]);
    }
  }

  lemma {:induction false} JoinTwo(s: string)
    requires |Split(s)| == 2
    ensures s == Split(s)[0] + ":" + Split(s)[1] && NoColon(Split(s)[0]) && NoColon(Split(s)[1])
  {
    if s != "" {
      var rest := Split(s[1..]);
      assert s == [s[0]] + s[1..];
      if s[0] == ':' {
        JoinOne(s[1..]);
        assert Split(s) == ["", s[1..]];
      } else {
        JoinTwo(s[1..]);
        assert Split(s)[0] == [s[0]] + rest[0] && Split(s)[1] == rest[1];
        Prepend(s[0], rest[0], rest[1]);
      }
    }
  }

  lemma Prepend(c: char, a: string, b: string)
    ensures [c] + (a + ":" + b) == ([c] + a) + ":" + b
    ensures c != ':' && NoColon(a) ==> NoColon([c] + a)
  {
  }

  lemma {:induction false} JoinOne(s: string)
    requires |Split(s)| == 1
    ensures NoColon(s) && Split(s)[0] == s
  {
    if s != "" {
      JoinOne(s[1..]);
    }
  }

  /** The texts that read as a channel point: sixty-four characters, a colon, a number,
      and no other colon. */
  predicate PointText(s: string) {
    |s| > 65 && NoColon(s[..64]) && s[64] == ':' && ParseInt(s[65..]).Some?
  }

  lemma PointTextIff(s: string)
    ensures DecodeChannelPoint(s).Some? <==> PointText(s)
  {
    if DecodeChannelPoint(s).Some? {
      JoinTwo(s);
      var a, b := Split(s)[0], Split(s)[1];
      assert s[..64] == a && s[65..] == b && s[64] == ':';
    } else if PointText(s) {
      NumberHasNoColon(s[65..]);
      assert s == s[..64] + ":" + s[65..];
      SplitTwo(s[..64], s[65..]);
    }
  }

  lemma NumberHasNoColon(s: string)
    requires ParseInt(s).Some?
    ensures NoColon(s)
  {
    forall i | 0 <= i < |s| ensures s[i] != ':' {
      if s[0] == '-' || s[0] == '+' {
        assert i > 0 ==> IsDigit(s[1..][i - 1]);
      } else {
        assert IsDigit(s[i]);
      }
    }
  }

  lemma ChanPointRoundTrip(p: ChanPoint)
    requires GoodTxid(p.txid)
    ensures DecodeChannelPoint(FormatPoint(p)) == Some(p)
  {
    var d := Decimal(p.index);
    DecimalRoundTrip(p.index);
    assert IsDigit(d[0]);
    SplitTwo(p.txid, d);
  }

  /** A written channel point reads back exactly if its txid has the right length and no
      colon. */
  lemma ChanPointReadsBackIff(p: ChanPoint)
    ensures DecodeChannelPoint(FormatPoint(p)) == Some(p) <==> GoodTxid(p.txid)
  {
    if GoodTxid(p.txid) {
      ChanPointRoundTrip(p);
    } else {
      SplitCounts(p.txid, Decimal(p.index));
    }
  }
}
