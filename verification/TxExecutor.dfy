/** Running a transaction body with bounded retries and a random, growing delay. */
module TxExecutor {
  import opened AccountTypes

  /** How a call on the database ends: well, with an error that permits another try
      (serialization or deadlock), or with any other error. */
  datatype Outcome = Fine | Retry | Fatal

  /** Everything the environment decides about one attempt. The body sees the state at
      the start of its transaction and may do something else each time. */
  datatype Attempt<!S> = Attempt(begin: Outcome, body: S -> (S, Outcome), commit: Outcome)

  /** What other writers do to the state before an attempt. */
  type Others<!S> = (nat, S) -> S

  datatype Result = Committed | RetriesExceeded | Failed

  /** The database: what is committed, by how many commits of this executor, and the
      transactions that are still open. */
  class Database<S> {
    var state: S
    var commits: nat
    var open: set<nat>

    constructor (s: S)
      ensures state == s && commits == 0 && open == {}
    {
      state, commits, open := s, 0, {};
    }

    method BeginTx(id: nat, outcome: Outcome) returns (tx: S)
      modifies this
      ensures state == old(state) && commits == old(commits) && tx == state
      ensures open == if outcome == Fine then old(open) + {id} else old(open)
    {
      if outcome == Fine {
        open := open + {id};
      }
      return state;
    }

    /** A failed commit commits nothing. */
    method Commit(id: nat, tx: S, outcome: Outcome)
      modifies this
      ensures outcome == Fine ==> state == tx && commits == old(commits) + 1 && open == old(open) - {id}
      ensures outcome != Fine ==> state == old(state) && commits == old(commits) && open == old(open)
    {
      if outcome == Fine {
        state, commits, open := tx, commits + 1, open - {id};
      }
    }

    /** Does nothing to a transaction that is closed. */
    method Rollback(id: nat)
      modifies this`open
      ensures open == old(open) - {id}
    {
      open := open - {id};
    }
  }

  /** How an attempt ends that starts in a state. */
  function EndOf<S>(a: Attempt<S>, s: S): Outcome {
    if a.begin != Fine then a.begin
    else if a.body(s).1 != Fine then a.body(s).1
    else a.commit
  }

  /** The state that the n-th attempt starts in if no attempt before it committed. */
  function StateAt<S>(s: S, others: Others<S>, n: nat): S {
    others(n, if n == 0 then s else StateAt(s, others, n - 1))
  }

  function EndAt<S>(s: S, others: Others<S>, attempts: nat -> Attempt<S>, n: nat): Outcome {
    EndOf(attempts(n), StateAt(s, others, n))
  }

  /** Success is decided by the attempts alone: some allowed attempt ends well and all
      before it ask for another try. */
  ghost predicate Succeeds<S>(s: S, numRetries: int, others: Others<S>, attempts: nat -> Attempt<S>) {
    exists k: nat :: k < numRetries && EndAt(s, others, attempts, k) == Fine &&
                     forall j: nat :: j < k ==> EndAt(s, others, attempts, j) == Retry
  }

  /** The first attempt that does not ask for another try decides. */
  lemma FirstDecides<S>(s: S, numRetries: int, others: Others<S>, attempts: nat -> Attempt<S>, n: nat)
    requires n < numRetries && EndAt(s, others, attempts, n) != Retry
    requires forall j: nat :: j < n ==> EndAt(s, others, attempts, j) == Retry
    ensures Succeeds(s, numRetries, others, attempts) <==> EndAt(s, others, attempts, n) == Fine
  {
    if Succeeds(s, numRetries, others, attempts) {
      var k: nat :| k < numRetries && EndAt(s, others, attempts, k) == Fine &&
                    forall j: nat :: j < k ==> EndAt(s, others, attempts, j) == Retry;
      assert k == n;
    }
  }

  /** The body takes effect at most once, and exactly once if and only if the result is
      success: that of the first attempt that does not ask for another try. Otherwise
      this executor changed nothing. No more attempts are made than allowed, and no
      transaction stays open. */
  method ExecTx<S>(db: Database<S>, numRetries: int, others: Others<S>, attempts: nat -> Attempt<S>)
    returns (r: Result, used: nat)
    requires db.open == {}
    modifies db
    ensures used <= numRetries || (used == 0 && numRetries <= 0)
    ensures forall j :: 0 <= j < used - 1 ==> EndAt(old(db.state), others, attempts, j) == Retry
    ensures r == Committed <==> Succeeds(old(db.state), numRetries, others, attempts)
    ensures db.commits == old(db.commits) + if r == Committed then 1 else 0
    ensures r == Committed ==>
              && used > 0 && EndAt(old(db.state), others, attempts, used - 1) == Fine
              && db.state == attempts(used - 1).body(StateAt(old(db.state), others, used - 1)).0
    ensures r == Failed ==> used > 0 && EndAt(old(db.state), others, attempts, used - 1) == Fatal
    ensures r == RetriesExceeded ==>
              && used == (if numRetries > 0 then numRetries else 0)
              && (used > 0 ==> EndAt(old(db.state), others, attempts, used - 1) == Retry)
    ensures r != Committed ==> db.state == if used == 0 then old(db.state) else StateAt(old(db.state), others, used - 1)
    ensures db.open == {}
  {
    used := 0;
    while used < numRetries
      invariant used <= numRetries || (used == 0 && numRetries <= 0)
      invariant forall j :: 0 <= j < used ==> EndAt(old(db.state), others, attempts, j) == Retry
      invariant db.commits == old(db.commits) && db.open == {}
      invariant db.state == if used == 0 then old(db.state) else StateAt(old(db.state), others, used - 1)
    {
      var i := used;
      used := used + 1;
      db.state := others(i, db.state);
      ghost var s := db.state;
      var a := attempts(i);
      assert s == StateAt(old(db.state), others, i);
      if EndOf(a, s) != Retry {
        FirstDecides(old(db.state), numRetries, others, attempts, i);
      }
      var tx := db.BeginTx(i, a.begin);
      if a.begin == Retry {
        continue;
      } else if a.begin == Fatal {
        return Failed, used;
      }
      var done := a.body(tx);
      if done.1 == Retry {
        db.Rollback(i);
        continue;
      } else if done.1 == Fatal {
        db.Rollback(i);
        return Failed, used;
      }
      db.Commit(i, done.0, a.commit);
      if a.commit == Retry {
        db.Rollback(i);
        continue;
      } else if a.commit == Fatal {
        db.Rollback(i);
        return Failed, used;
      }
      db.Rollback(i);
      return Committed, used;
    }
    return RetriesExceeded, used;
  }

  // ---- The delay between attempts ----

  const MILLISECOND: int := 1_000_000
  const DEFAULT_INITIAL_DELAY: Int64 := 40 * MILLISECOND
  const DEFAULT_MAX_DELAY: Int64 := 3000 * MILLISECOND
  const MAX_POWER: nat := 32

  function Pow2(n: nat): nat {
    if n == 0 then 1 else 2 * Pow2(n - 1)
  }

  function Factor(attempt: nat): nat {
    Pow2(if attempt < MAX_POWER then attempt else MAX_POWER)
  }

  /** The delay in nanoseconds, in 64-bit arithmetic; the draw is below the initial delay. */
  function RetryDelay(initial: Int64, max: Int64, draw: Int64, attempt: nat): Int64
    requires 0 <= draw < initial
  {
    var first := ToInt64(initial / 2 + draw);
    if attempt == 0 then first
    else
      var actual := ToInt64(first * Factor(attempt));
      if actual > max then max else actual
  }

  /** What the delay is meant to be. */
  function ExactDelay(initial: Int64, max: Int64, draw: Int64, attempt: nat): int
    requires 0 <= draw < initial
  {
    var exact := (initial / 2 + draw) * Factor(attempt);
    if attempt > 0 && exact > max then max else exact
  }

  /** The largest first delay, doubled as often as possible, fits 64 bits. */
  predicate Roomy(initial: Int64) {
    (initial / 2 + initial - 1) * 0x1_0000_0000 <= MAX_INT64
  }

  lemma {:induction false} Pow2Grows(n: nat, m: nat)
    requires n <= m
    ensures 1 <= Pow2(n) <= Pow2(m)
  {
    if m > n {
      Pow2Grows(n, m - 1);
    } else if n > 0 {
      Pow2Grows(n - 1, m - 1);
    }
  }

  lemma Pow2Of32()
    ensures Pow2(32) == 0x1_0000_0000
  {
    assert Pow2(8) == 256;
    assert Pow2(16) == 0x1_0000;
    assert Pow2(24) == 0x100_0000;
  }

  lemma FactorBound(attempt: nat)
    ensures 1 <= Factor(attempt) <= 0x1_0000_0000
  {
    Pow2Grows(if attempt < MAX_POWER then attempt else MAX_POWER, MAX_POWER);
    Pow2Of32();
  }

  lemma ProductBound(a: int, b: int, x: int, y: int)
    requires 0 <= a <= x && 0 <= b <= y
    ensures 0 <= a * b <= x * y
  {
    assert a * b <= a * y <= x * y;
  }

  lemma RoomyIsExact(initial: Int64, max: Int64, draw: Int64, attempt: nat)
    requires 0 <= draw < initial && Roomy(initial)
    ensures RetryDelay(initial, max, draw, attempt) == ExactDelay(initial, max, draw, attempt)
  {
    var first, top := initial / 2 + draw, initial / 2 + initial - 1;
    FactorBound(attempt);
    ProductBound(first, Factor(attempt), top, 0x1_0000_0000);
    Fits(first);
    Fits(first * Factor(attempt));
  }

  lemma Fits(n: int)
    requires 0 <= n <= MAX_INT64
    ensures ToInt64(n) == n
  {
  }

  /** A first delay in the upper half of a 32-bit range becomes negative. */
  lemma UpperHalfIsNegative(first: int)
    requires first % 0x1_0000_0000 >= 0x8000_0000
    ensures ToInt64(first * 0x1_0000_0000) < 0
  {
    var q, r := first / 0x1_0000_0000, first % 0x1_0000_0000;
    assert first * 0x1_0000_0000 == r * 0x1_0000_0000 + q * TWO_64;
    WrapPeriodic(r * 0x1_0000_0000, q);
  }

  /** Without room, some draw makes a late delay negative. */
  lemma TightOverflows(initial: Int64, max: Int64) returns (draw: Int64)
    requires initial > 0 && max >= 0 && !Roomy(initial)
    ensures 0 <= draw < initial && RetryDelay(initial, max, draw, MAX_POWER) < 0
  {
    var half := initial / 2;
    var top := half + initial - 1;
    var r := half % 0x1_0000_0000;
    if top < 0x1_0000_0000 {
      draw := initial - 1;
    } else if r >= 0x8000_0000 {
      draw := 0;
    } else {
      draw := 0x8000_0000 - r;
    }
    UpperHalfIsNegative(half + draw);
    Fits(half + draw);
    Pow2Of32();
  }

  /** Every draw and every attempt gives the delay that is meant. */
  ghost predicate AlwaysExact(initial: Int64, max: Int64) {
    forall draw: Int64, attempt: nat :: 0 <= draw < initial ==>
      RetryDelay(initial, max, draw, attempt) == ExactDelay(initial, max, draw, attempt)
  }

  lemma ExactIsNotNegative(initial: Int64, max: Int64, draw: Int64, attempt: nat)
    requires 0 <= draw < initial && max >= 0
    ensures ExactDelay(initial, max, draw, attempt) >= 0
  {
    FactorBound(attempt);
    Grows(initial / 2 + draw, Factor(attempt));
  }

  lemma TightIsNotExact(initial: Int64, max: Int64)
    requires initial > 0 && max >= 0 && !Roomy(initial)
    ensures !AlwaysExact(initial, max)
  {
    var draw := TightOverflows(initial, max);
    ExactIsNotNegative(initial, max, draw, MAX_POWER);
  }

  /** The delay is always what it is meant to be if and only if the initial delay is
      small enough that doubling it cannot overflow. */
  lemma DelayExactIffRoomy(initial: Int64, max: Int64)
    requires initial > 0 && max >= 0
    ensures AlwaysExact(initial, max) <==> Roomy(initial)
  {
    if Roomy(initial) {
      forall draw: Int64, attempt: nat | 0 <= draw < initial
        ensures RetryDelay(initial, max, draw, attempt) == ExactDelay(initial, max, draw, attempt)
      {
        RoomyIsExact(initial, max, draw, attempt);
      }
    } else {
      TightIsNotExact(initial, max);
    }
  }

  lemma FactorDoubles(attempt: nat)
    ensures Factor(attempt + 1) == if attempt < 32 then 2 * Factor(attempt) else Factor(attempt)
  {
  }

  /** The first delay is half the initial one plus the draw; every further one is twice
      the one before it, up to the maximum, and from the thirty-third on they stay. */
  lemma DelayDoubles(initial: Int64, max: Int64, draw: Int64, attempt: nat)
    requires 0 <= draw < initial && max >= 0 && Roomy(initial)
    ensures RetryDelay(initial, max, draw, 0) == initial / 2 + draw
    ensures var delay, next := RetryDelay(initial, max, draw, attempt), RetryDelay(initial, max, draw, attempt + 1);
            if attempt >= 32 then next == delay
            else if 2 * delay > max then next == max
            else next == 2 * delay
  {
    RoomyIsExact(initial, max, draw, 0);
    RoomyIsExact(initial, max, draw, attempt);
    RoomyIsExact(initial, max, draw, attempt + 1);
    FactorDoubles(attempt);
    var first := initial / 2 + draw;
    assert Factor(0) == 1;
    Twice(first, Factor(attempt), Factor(attempt + 1));
  }

  lemma Twice(a: int, f: nat, g: nat)
    requires a >= 0
    ensures a * f >= 0
    ensures g == 2 * f ==> a * g == 2 * (a * f)
  {
  }

  /** With room, no delay exceeds the maximum if and only if no first delay does: the
      delay before the second attempt is not capped. */
  lemma WithinMaximumIff(initial: Int64, max: Int64)
    requires initial > 0 && max >= 0 && Roomy(initial)
    ensures (forall draw: Int64, attempt: nat :: 0 <= draw < initial ==> RetryDelay(initial, max, draw, attempt) <= max) <==>
            initial / 2 + initial - 1 <= max
  {
    var top: int := initial / 2 + initial - 1;
    RoomyIsExact(initial, max, initial - 1, 0);
    assert Factor(0) == 1;
    assert RetryDelay(initial, max, initial - 1, 0) == top;
    if top <= max {
      forall draw: Int64, attempt: nat | 0 <= draw < initial ensures RetryDelay(initial, max, draw, attempt) <= max {
        RoomyIsExact(initial, max, draw, attempt);
      }
    }
  }

  /** The default delays have room and stay between 20 milliseconds and 3 seconds. */
  lemma DefaultDelays(draw: Int64, attempt: nat)
    requires 0 <= draw < DEFAULT_INITIAL_DELAY
    ensures var delay := RetryDelay(DEFAULT_INITIAL_DELAY, DEFAULT_MAX_DELAY, draw, attempt);
            && delay == ExactDelay(DEFAULT_INITIAL_DELAY, DEFAULT_MAX_DELAY, draw, attempt)
            && 20_000_000 <= delay <= 3_000_000_000
            && (attempt == 0 ==> delay == 20_000_000 + draw)
  {
    DelayBounds(DEFAULT_INITIAL_DELAY, DEFAULT_MAX_DELAY, draw, attempt);
  }

  lemma DelayBounds(initial: Int64, max: Int64, draw: Int64, attempt: nat)
    requires 0 <= draw < initial && Roomy(initial) && initial / 2 + initial - 1 <= max
    ensures var delay := RetryDelay(initial, max, draw, attempt);
            delay == ExactDelay(initial, max, draw, attempt) && initial / 2 <= delay <= max
  {
    RoomyIsExact(initial, max, draw, attempt);
    ExactBounds(initial, max, draw, attempt);
  }

  lemma ExactBounds(initial: Int64, max: Int64, draw: Int64, attempt: nat)
    requires 0 <= draw < initial && initial / 2 + initial - 1 <= max
    ensures initial / 2 <= ExactDelay(initial, max, draw, attempt) <= max
  {
    FactorBound(attempt);
    Grows(initial / 2 + draw, Factor(attempt));
    if attempt == 0 {
      assert Factor(0) == 1;
    }
  }

  lemma Grows(a: int, f: nat)
    requires a >= 0 && f >= 1
    ensures a <= a * f
  {
  }
}
