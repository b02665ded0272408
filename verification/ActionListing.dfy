/** Listing actions with a time window: the filter ends the scan early, which is sound
    when the actions are in the order of their times. */
module ActionListing {
  import opened AccountTypes
  import opened Pagination
  import opened ActionLog
  import opened RequestLogger

  /** Empty strings, an unknown state and unset times filter nothing. */
  datatype Options = Options(
    feature: string, actor: string, rpcMethod: string, state: Byte,
    startTime: Option<int>, endTime: Option<int>)

  function FilterFn(a: Action, opts: Options, reversed: bool): Verdict {
    if opts.endTime.Some? && a.attemptedAt > opts.endTime.value then
      if reversed then Skip else Stop
    else if opts.startTime.Some? && a.attemptedAt < opts.startTime.value then
      if reversed then Stop else Skip
    else if opts.feature != "" && a.details.feature != opts.feature then Skip
    else if opts.actor != "" && a.details.actor != opts.actor then Skip
    else if opts.rpcMethod != "" && a.details.rpcMethod != opts.rpcMethod then Skip
    else if opts.state != UNSET && a.state != opts.state then Skip
    else Accept
  }

  /** The actions the caller asked for, in no particular order of tests. */
  predicate Wanted(a: Action, opts: Options) {
    && (opts.startTime.Some? ==> opts.startTime.value <= a.attemptedAt)
    && (opts.endTime.Some? ==> a.attemptedAt <= opts.endTime.value)
    && (opts.feature in {"", a.details.feature})
    && (opts.actor in {"", a.details.actor})
    && (opts.rpcMethod in {"", a.details.rpcMethod})
    && (opts.state in {UNSET, a.state})
  }

  type Reader = Uint64 -> Action

  predicate TimeOrder(keys: seq<Uint64>, read: Reader) {
    forall i, j :: 0 <= i < j < |keys| ==> read(keys[i]).attemptedAt <= read(keys[j]).attemptedAt
  }

  /** The keys of the wanted actions, with no early exit. */
  function Select(trail: seq<Uint64>, read: Reader, opts: Options): seq<Uint64> {
    if trail == [] then []
    else (if Wanted(read(trail[0]), opts) then [trail[0]] else []) + Select(trail[1..], read, opts)
  }

  function Filtering(read: Reader, opts: Options, reversed: bool): Judge {
    (k: Uint64) => FilterFn(read(k), opts, reversed)
  }

  lemma {:induction false} SelectNothing(trail: seq<Uint64>, read: Reader, opts: Options)
    requires forall k :: k in trail ==> !Wanted(read(k), opts)
    ensures Select(trail, read, opts) == []
  {
    if trail != [] {
      SelectNothing(trail[1..], read, opts);
    }
  }

  /** What ends a scan also rules out everything after it. */
  lemma StopIsFinal(keys: seq<Uint64>, i: int, reversed: bool, read: Reader, opts: Options)
    requires Sorted(keys) && TimeOrder(keys, read) && 0 <= i < |keys|
    requires FilterFn(read(keys[i]), opts, reversed) == Stop
    ensures Select(Trail(keys, i, reversed), read, opts) == []
  {
    forall k | k in Trail(keys, i, reversed) ensures !Wanted(read(k), opts) {
      TrailOnlyKeys(keys, i, reversed);
      var j: nat :| j < |keys| && keys[j] == k;
      TrailMembers(keys, i, reversed, j);
    }
    SelectNothing(Trail(keys, i, reversed), read, opts);
  }

  /** In either direction the stopping scan returns exactly what plain filtering does. */
  lemma {:induction false} EarlyExitIsFiltering(keys: seq<Uint64>, i: int, reversed: bool, read: Reader, opts: Options)
    requires Sorted(keys) && TimeOrder(keys, read) && OnTrail(keys, i, reversed)
    ensures ScanFrom(keys, i, reversed, Filtering(read, opts, reversed)) == Select(Trail(keys, i, reversed), read, opts)
    decreases if reversed then i + 1 else |keys| - i
  {
    if i != (if reversed then -1 else |keys|) {
      if FilterFn(read(keys[i]), opts, reversed) == Stop {
        StopIsFinal(keys, i, reversed, read, opts);
      } else {
        EarlyExitIsFiltering(keys, StepFrom(i, reversed), reversed, read, opts);
        assert Trail(keys, i, reversed)[1..] == Trail(keys, StepFrom(i, reversed), reversed);
      }
    }
  }

  lemma {:induction false} SelectMembers(trail: seq<Uint64>, read: Reader, opts: Options, k: Uint64)
    ensures k in Select(trail, read, opts) <==> k in trail && Wanted(read(k), opts)
  {
    if trail != [] {
      SelectMembers(trail[1..], read, opts, k);
    }
  }

  /** Options that ask for a window of time and nothing else. */
  function Window(start: Option<int>, end: Option<int>): Options {
    Options("", "", "", UNSET, start, end)
  }

  /** The scan of the whole log returns what plain filtering does, whatever is asked for. */
  ghost predicate AlwaysFilters(keys: seq<Uint64>, read: Reader, reversed: bool) {
    forall opts :: ScanFrom(keys, FirstPos(keys, reversed), reversed, Filtering(read, opts, reversed)) ==
                   Select(Trail(keys, FirstPos(keys, reversed), reversed), read, opts)
  }

  /** Two actions out of order hide a wanted one in either direction: forward the later
      one, from a window that ends at its time, and in reverse the earlier one, from a
      window that starts at its time. */
  lemma DisorderHides(keys: seq<Uint64>, read: Reader, reversed: bool, i: nat, j: nat)
    requires Sorted(keys) && i < j < |keys| && read(keys[i]).attemptedAt > read(keys[j]).attemptedAt
    ensures var hidden := if reversed then i else j;
            var time := Some(read(keys[hidden]).attemptedAt);
            var opts := if reversed then Window(time, None) else Window(None, time);
            && Wanted(read(keys[hidden]), opts)
            && keys[hidden] !in ScanFrom(keys, FirstPos(keys, reversed), reversed, Filtering(read, opts, reversed))
            && keys[hidden] in Select(Trail(keys, FirstPos(keys, reversed), reversed), read, opts)
  {
    var hidden, stops := if reversed then i else j, if reversed then j else i;
    var time := Some(read(keys[hidden]).attemptedAt);
    var opts := if reversed then Window(time, None) else Window(None, time);
    var first := FirstPos(keys, reversed);
    assert Filtering(read, opts, reversed)(keys[stops]) == Stop;
    ScanMembers(keys, first, reversed, Filtering(read, opts, reversed), hidden);
    TrailMembers(keys, first, reversed, hidden);
    SelectMembers(Trail(keys, first, reversed), read, opts, keys[hidden]);
  }

  /** Ending the scan early is sound in either direction if and only if the actions are
      in the order of their times. */
  lemma EarlyExitIffOrdered(keys: seq<Uint64>, read: Reader, reversed: bool)
    requires Sorted(keys)
    ensures AlwaysFilters(keys, read, reversed) <==> TimeOrder(keys, read)
  {
    if TimeOrder(keys, read) {
      forall opts ensures ScanFrom(keys, FirstPos(keys, reversed), reversed, Filtering(read, opts, reversed)) ==
                          Select(Trail(keys, FirstPos(keys, reversed), reversed), read, opts) {
        EarlyExitIsFiltering(keys, FirstPos(keys, reversed), reversed, read, opts);
      }
    } else {
      var i: nat, j: nat :| i < j < |keys| && read(keys[i]).attemptedAt > read(keys[j]).attemptedAt;
      DisorderHides(keys, read, reversed, i, j);
    }
  }

  // ---- Listing the log ----

  function Upto(n: Uint64): (keys: seq<Uint64>)
    ensures |keys| == n && forall i :: 0 <= i < n ==> keys[i] == i + 1
    ensures Sorted(keys)
  {
    seq(n, i requires 0 <= i < n => i + 1)
  }

  /** Reading through the index: sequence number, locator, action. */
  function IndexReader(log: Log): Reader {
    (k: Uint64) => if k in log.index && Stored(log, log.index[k]).Some? then Stored(log, log.index[k]).value else BLANK
  }

  function SessionReader(log: Log, s: SessionID): Reader {
    (k: Uint64) => if Stored(log, Locator(s, k)).Some? then Stored(log, Locator(s, k)).value else BLANK
  }

  function TimeAt(log: Log, at: Locator): int {
    if Stored(log, at).Some? then Stored(log, at).value.attemptedAt else 0
  }

  /** The index lists the actions in the order of their times, none after now. */
  ghost predicate Chronological(log: Log, now: int) {
    && (forall k :: k in log.index ==> TimeAt(log, log.index[k]) <= now)
    && (forall i, j :: i in log.index && j in log.index && i < j ==> TimeAt(log, log.index[i]) <= TimeAt(log, log.index[j]))
  }

  /** The clock that stamps new actions never goes back. */
  predicate SteadyClock(es: seq<Event>, now: int) {
    es == [] ||
    if es[0].Add? then now <= es[0].now && SteadyClock(es[1..], es[0].now) else SteadyClock(es[1..], now)
  }

  function Clock(e: Event, now: int): int {
    if e.Add? then e.now else now
  }

  lemma AddKeepsTimes(w: World, e: Event, n: nat, now: int)
    requires Inv(w, n) && n < MAX_UINT64 && e.Add? && Chronological(w.log, now) && now <= e.now
    ensures Chronological(Next(w, e).log, e.now)
  {
    if e.stored {
      AddedStores(w.log, e.req, e.now, n);
      var log' := Next(w, e).log;
      forall k | k in log'.index && k in w.log.index ensures TimeAt(log', log'.index[k]) == TimeAt(w.log, w.log.index[k]) {
        assert Stored(w.log, w.log.index[k]).Some?;
      }
    }
  }

  lemma MarkKeepsTimes(w: World, e: Event, n: nat, now: int)
    requires Inv(w, n) && e.Mark? && Chronological(w.log, now)
    ensures Chronological(Next(w, e).log, now)
  {
    if e.reqID in w.live {
      assert Open(w, w.live[e.reqID]);
      StateSetKeepsIndexed(w.log, w.live[e.reqID], e.state, e.reason, n);
      assert forall at :: TimeAt(Next(w, e).log, at) == TimeAt(w.log, at);
    }
  }

  lemma {:induction false} RunKeepsTimes(w: World, es: seq<Event>, n: nat, now: int) returns (end: int)
    requires Inv(w, n) && IsRun(w, es) && n + |es| < TWO_64 && SteadyClock(es, now) && Chronological(w.log, now)
    ensures Chronological(Final(w, es).log, end)
    decreases |es|
  {
    if es == [] {
      end := now;
    } else {
      StepKeeps(w, es[0], n);
      if es[0].Add? {
        AddKeepsTimes(w, es[0], n, now);
      } else if es[0].Mark? {
        MarkKeepsTimes(w, es[0], n, now);
      }
      end := RunKeepsTimes(Next(w, es[0]), es[1..], n + 1, Clock(es[0], now));
    }
  }

  lemma IndexTimes(log: Log, now: int)
    requires Indexed(log) && Chronological(log, now)
    ensures TimeOrder(Upto(log.sequence), IndexReader(log))
  {
    var keys, read := Upto(log.sequence), IndexReader(log);
    forall i, j | 0 <= i < j < |keys| ensures read(keys[i]).attemptedAt <= read(keys[j]).attemptedAt {
      assert TimeAt(log, log.index[keys[i]]) <= TimeAt(log, log.index[keys[j]]);
    }
  }

  /** Listing all actions after any run of the logger under a steady clock: a query
      returns, in order, exactly the wanted actions beyond its offset. */
  lemma ListingIsFiltering(es: seq<Event>, now: int, q: Query, opts: Options)
    requires IsRun(INITIAL, es) && |es| < TWO_64 && SteadyClock(es, now)
    ensures var log := Final(INITIAL, es).log;
            var keys, read := Upto(log.sequence), IndexReader(log);
            Unlimited(keys, q, Filtering(read, opts, q.reversed)) ==
            Select(Trail(keys, StartOf(keys, q), q.reversed), read, opts)
  {
    RunKeeps(INITIAL, es, 0);
    var end := RunKeepsTimes(INITIAL, es, 0, now);
    var log := Final(INITIAL, es).log;
    var keys := Upto(log.sequence);
    IndexTimes(log, end);
    EarlyExitIsFiltering(keys, StartOf(keys, q), q.reversed, IndexReader(log), opts);
  }

  /** The ids of one session are in the order of the index. */
  lemma SessionTimes(log: Log, now: int, s: SessionID, i: Uint64, j: Uint64)
    requires Indexed(log) && Chronological(log, now) && i < j
    requires Stored(log, Locator(s, i)).Some? && Stored(log, Locator(s, j)).Some?
    ensures TimeAt(log, Locator(s, i)) <= TimeAt(log, Locator(s, j))
  {
    var x :| x in log.index && log.index[x] == Locator(s, i);
    var y :| y in log.index && log.index[y] == Locator(s, j);
    assert x <= y;
  }

  lemma SessionOrder(log: Log, now: int, s: SessionID)
    requires Indexed(log) && Chronological(log, now)
    ensures TimeOrder(Upto(BucketOf(log, s).sequence), SessionReader(log, s))
  {
    var keys, read := Upto(BucketOf(log, s).sequence), SessionReader(log, s);
    forall i, j | 0 <= i < j < |keys| ensures read(keys[i]).attemptedAt <= read(keys[j]).attemptedAt {
      SessionTimes(log, now, s, keys[i], keys[j]);
    }
  }

  /** The same for the actions of one session. */
  lemma SessionListingIsFiltering(es: seq<Event>, now: int, s: SessionID, q: Query, opts: Options)
    requires IsRun(INITIAL, es) && |es| < TWO_64 && SteadyClock(es, now)
    ensures var log := Final(INITIAL, es).log;
            var keys, read := Upto(BucketOf(log, s).sequence), SessionReader(log, s);
            Unlimited(keys, q, Filtering(read, opts, q.reversed)) ==
            Select(Trail(keys, StartOf(keys, q), q.reversed), read, opts)
  {
    RunKeeps(INITIAL, es, 0);
    var end := RunKeepsTimes(INITIAL, es, 0, now);
    var log := Final(INITIAL, es).log;
    var keys := Upto(BucketOf(log, s).sequence);
    SessionOrder(log, end, s);
    EarlyExitIsFiltering(keys, StartOf(keys, q), q.reversed, SessionReader(log, s), opts);
  }
}
