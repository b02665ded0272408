/** The values shared by every part of the accounts system: fixed-width integers,
    hashes, payment entries and accounts. */
module AccountTypes {
  const TWO_32: int := 0x1_0000_0000
  const TWO_63: int := 0x8000_0000_0000_0000
  const TWO_64: int := 0x1_0000_0000_0000_0000
  const MAX_INT64: int := TWO_63 - 1

  type Byte = b: int | 0 <= b < 256
  type Int64 = n: int | -TWO_63 <= n < TWO_63
  type Uint64 = n: int | 0 <= n < TWO_64

  /** Milli-satoshi amounts are unsigned 64-bit words; balances are signed ones. */
  type Msat = Uint64

  type Hash = h: seq<Byte> | |h| == 32 witness seq(32, _ => 0)
  type AccountID = i: seq<Byte> | |i| == 8 witness seq(8, _ => 0)

  datatype Option<+T> = None | Some(value: T)

  datatype Error =
    | NotFound
    | AlreadySucceeded
    | AlreadyPending
    | NotAssociated
    | AmountTooLarge
    | WouldOverdraw
    | CreateRefused
    | NoIndexKnown
    | Expired
    | Insufficient
    | Disabled
    | AlreadyTracked
    | AlreadyRegistered
    | NotMapped
    | HashMismatch
    | StoreFailure
    | RpcFailure

  datatype Result<+T> = Ok(value: T) | Err(error: Error)

  /** The two's complement reading of an integer in 64 bits. */
  function ToInt64(x: int): Int64 {
    (x + TWO_63) % TWO_64 - TWO_63
  }

  function ToUint64(x: int): Uint64 {
    x % TWO_64
  }

  /** Wrapping once at the end or after every addition is the same. */
  lemma WrapAbsorbs(x: int, y: int)
    ensures ToInt64(ToInt64(x) + y) == ToInt64(x + y)
    ensures ToInt64(x + ToInt64(y)) == ToInt64(x + y)
    ensures ToInt64(x - ToInt64(y)) == ToInt64(x - y)
  {
    WrapDiffersByMultiple(x);
    WrapDiffersByMultiple(y);
    var k := (x + TWO_63) / TWO_64;
    var m := (y + TWO_63) / TWO_64;
    WrapPeriodic(x + y, -k);
    WrapPeriodic(x + y, -m);
    WrapPeriodic(x - y, m);
  }

  lemma WrapSum(x: int, y: int)
    ensures ToInt64(ToInt64(x) + ToInt64(y)) == ToInt64(x + y)
  {
    WrapAbsorbs(x, ToInt64(y));
    WrapAbsorbs(x, y);
  }

  lemma WrapDiffersByMultiple(x: int)
    ensures ToInt64(x) == x - (x + TWO_63) / TWO_64 * TWO_64
  {
  }

  lemma WrapPeriodic(x: int, k: int)
    ensures ToInt64(x + k * TWO_64) == ToInt64(x)
  {
    var a := x + TWO_63;
    assert (a + k * TWO_64) % TWO_64 == a % TWO_64 by {
      var q, r := a / TWO_64, a % TWO_64;
      assert a + k * TWO_64 == (q + k) * TWO_64 + r;
    }
  }

  /** Reinterpreting a word as signed and back loses nothing. */
  lemma WordRoundTrip(x: Uint64, y: Int64)
    ensures ToUint64(ToInt64(x)) == x
    ensures ToInt64(ToUint64(y)) == y
  {
  }

  /** Adding int64(amount), the two's complement reading of the amount. */
  function AddWord(balance: Int64, amount: Msat): (r: Int64)
    ensures r == ToInt64(balance + amount)
  {
    WrapAbsorbs(balance, amount);
    ToInt64(balance + ToInt64(amount))
  }

  function SubtractWord(balance: Int64, amount: Msat): (r: Int64)
    ensures r == ToInt64(balance - amount)
  {
    WrapAbsorbs(balance, amount);
    ToInt64(balance - ToInt64(amount))
  }

  /** lnd's payment states, as the one-byte codes the stores keep. */
  type Status = Byte
  const UNKNOWN: Status := 0
  const IN_FLIGHT: Status := 1
  const SUCCEEDED: Status := 2
  const FAILED: Status := 3
  const INITIATED: Status := 4

  predicate SuccessState(s: Status) {
    s == SUCCEEDED
  }

  predicate InflightState(s: Status) {
    s != SUCCEEDED && s != FAILED
  }

  /** lnd's codes 2 and 3 are final; 0, 1, 4 and whatever is added are in flight. */
  lemma FinalCodes(s: Status)
    ensures InflightState(s) <==> s != 2 && s != 3
    ensures SuccessState(s) <==> s == 2
  {
  }

  datatype PaymentEntry = PaymentEntry(status: Status, fullAmount: Msat)

  type Payments = map<Hash, PaymentEntry>

  /** Expiry is None for an account that never expires, else nanoseconds. */
  datatype Account = Account(
    initialBalance: Msat,
    balance: Int64,
    expiry: Option<Int64>,
    invoices: set<Hash>,
    payments: Payments,
    name: seq<Byte>)  // the optional label
}
