/** What the action log holds after any run of the request logger, told from the events
    alone: whose actions are in which session, in which order, and how they ended. */
module ActionHistory {
  import opened AccountTypes
  import opened Wire
  import opened Pagination
  import opened ActionLog
  import opened RequestLogger
  import opened ActionListing

  /** A request belongs to the session of the last four bytes of its root key id, or to
      session zero if it has none. */
  ghost predicate BelongsTo(req: Request, s: SessionID) {
    if req.rootKeyID.None? then s == 0 else BigEndian(req.rootKeyID.value, 8)[4..] == BigEndian(s, 4)
  }

  lemma SessionIsLastFourBytes(key: Uint64)
    ensures BigEndian(key, 8)[4..] == BigEndian(MacaroonID(Some(key)), 4)
  {
    LowBytes(key, 8, 4);
    Widths();
  }

  lemma BelongsToIff(req: Request, s: SessionID)
    ensures BelongsTo(req, s) <==> MacaroonID(req.rootKeyID) == s
  {
    if req.rootKeyID.Some? {
      SessionIsLastFourBytes(req.rootKeyID.value);
      Widths();
      BigEndianRoundTrip(s, 4);
      BigEndianRoundTrip(MacaroonID(req.rootKeyID), 4);
    }
  }

  // ---- The actions of one session ----

  /** The request that an event stores in a session, with its time. */
  ghost function StoredBy(e: Event, s: SessionID): seq<(Request, int)> {
    if e.Add? && e.stored && BelongsTo(e.req, s) then [(e.req, e.now)] else []
  }

  /** The requests of a session that were stored, in order. */
  ghost function Requests(es: seq<Event>, s: SessionID): seq<(Request, int)> {
    if es == [] then [] else StoredBy(es[0], s) + Requests(es[1..], s)
  }

  ghost predicate Records(a: Option<Action>, r: (Request, int)) {
    a.Some? && a.value.details == r.0.details && a.value.attemptedAt == r.1
  }

  /** The session holds these requests, numbered from one, and nothing else. */
  ghost predicate Holds(log: Log, s: SessionID, rs: seq<(Request, int)>) {
    && BucketOf(log, s).sequence == |rs|
    && (forall k: Uint64 :: Stored(log, Locator(s, k)).Some? <==> 1 <= k <= |rs|)
    && (forall k: Uint64 :: 1 <= k <= |rs| ==> Records(Stored(log, Locator(s, k)), rs[k - 1]))
  }

  lemma AddHolds(log: Log, req: Request, now: int, s: SessionID, rs: seq<(Request, int)>, n: nat)
    requires Numbered(log) && AtMost(log, n) && n < MAX_UINT64 && Holds(log, s, rs)
    ensures Holds(Added(log, req, now), s, if BelongsTo(req, s) then rs + [(req, now)] else rs)
  {
    AddedStores(log, req, now, n);
    BelongsToIff(req, s);
    var log', at := Added(log, req, now), NewLocator(log, req);
    if BelongsTo(req, s) {
      assert at == Locator(s, |rs| + 1);
      forall k: Uint64 | 1 <= k <= |rs| + 1 ensures Records(Stored(log', Locator(s, k)), (rs + [(req, now)])[k - 1]) {
        if k <= |rs| {
          assert Records(Stored(log, Locator(s, k)), rs[k - 1]);
        }
      }
    } else {
      forall k: Uint64 ensures Stored(log', Locator(s, k)) == Stored(log, Locator(s, k)) {
      }
    }
  }

  lemma MarkHolds(w: World, e: Event, s: SessionID, rs: seq<(Request, int)>, n: nat)
    requires Inv(w, n) && e.Mark? && Holds(w.log, s, rs)
    ensures Holds(Next(w, e).log, s, rs)
  {
    if e.reqID in w.live {
      var at := w.live[e.reqID];
      assert Open(w, at);
      StateSetKeepsIndexed(w.log, at, e.state, e.reason, n);
      forall k: Uint64 | 1 <= k <= |rs| ensures Records(Stored(Next(w, e).log, Locator(s, k)), rs[k - 1]) {
        assert Records(Stored(w.log, Locator(s, k)), rs[k - 1]);
      }
    }
  }

  lemma StepHolds(w: World, e: Event, s: SessionID, rs: seq<(Request, int)>, n: nat)
    requires Inv(w, n) && Enabled(w, e) && n < MAX_UINT64 && Holds(w.log, s, rs)
    ensures Holds(Next(w, e).log, s, rs + StoredBy(e, s))
  {
    assert rs + [] == rs;
    if e.Add? && e.stored {
      AddHolds(w.log, e.req, e.now, s, rs, n);
    } else if e.Mark? {
      MarkHolds(w, e, s, rs, n);
    }
  }

  lemma {:induction false} RunHolds(w: World, es: seq<Event>, s: SessionID, rs: seq<(Request, int)>, n: nat)
    requires Inv(w, n) && IsRun(w, es) && n + |es| < TWO_64 && Holds(w.log, s, rs)
    ensures Holds(Final(w, es).log, s, rs + Requests(es, s))
    decreases |es|
  {
    if es == [] {
      assert rs + [] == rs;
    } else {
      StepKeeps(w, es[0], n);
      StepHolds(w, es[0], s, rs, n);
      RunHolds(Next(w, es[0]), es[1..], s, rs + StoredBy(es[0], s), n + 1);
      Joined(rs, StoredBy(es[0], s), Requests(es[1..], s));
    }
  }

  lemma Joined<T>(a: seq<T>, b: seq<T>, c: seq<T>)
    ensures (a + b) + c == a + (b + c)
  {
  }

  /** After every run, with whatever failures and restarts, the actions of a session are
      the stored requests whose root key id ends in its four bytes, in order. */
  lemma SessionHoldsItsRequests(es: seq<Event>, s: SessionID)
    requires IsRun(INITIAL, es) && |es| < TWO_64
    ensures Holds(Final(INITIAL, es).log, s, Requests(es, s))
  {
    RunHolds(INITIAL, es, s, [], 0);
    assert [] + Requests(es, s) == Requests(es, s);
  }

  /** So the listing of a session under a steady clock shows the wanted ones of exactly
      these requests, beyond the offset. */
  lemma SessionListingShowsRequests(es: seq<Event>, now: int, s: SessionID, q: Query, opts: Options, k: Uint64)
    requires IsRun(INITIAL, es) && |es| < TWO_64 && SteadyClock(es, now)
    ensures var log, rs := Final(INITIAL, es).log, Requests(es, s);
            |rs| < TWO_64 &&
            var keys, read := Upto(|rs|), SessionReader(log, s);
            && (k in Unlimited(keys, q, Filtering(read, opts, q.reversed)) <==>
                k in Trail(keys, StartOf(keys, q), q.reversed) && Wanted(read(k), opts))
            && (1 <= k <= |rs| ==> read(k).details == rs[k - 1].0.details && read(k).attemptedAt == rs[k - 1].1)
  {
    SessionHoldsItsRequests(es, s);
    SessionListingIsFiltering(es, now, s, q, opts);
    var log, rs := Final(INITIAL, es).log, Requests(es, s);
    var keys, read := Upto(|rs|), SessionReader(log, s);
    SelectMembers(Trail(keys, StartOf(keys, q), q.reversed), read, opts, k);
    if 1 <= k <= |rs| {
      assert Records(Stored(log, Locator(s, k)), rs[k - 1]);
    }
  }

  // ---- The index over all sessions ----

  /** The same whatever the session is. */
  ghost function AddedBy(e: Event): seq<(Request, int)> {
    if e.Add? && e.stored then [(e.req, e.now)] else []
  }

  ghost function AllRequests(es: seq<Event>): seq<(Request, int)> {
    if es == [] then [] else AddedBy(es[0]) + AllRequests(es[1..])
  }

  /** The index lists these requests in order, each in its own session. */
  ghost predicate Lists(log: Log, rs: seq<(Request, int)>) {
    && log.sequence == |rs|
    && (forall k: Uint64 :: k in log.index <==> 1 <= k <= |rs|)
    && (forall k: Uint64 :: 1 <= k <= |rs| ==>
          Records(Stored(log, log.index[k]), rs[k - 1]) && BelongsTo(rs[k - 1].0, log.index[k].session))
  }

  lemma AddLists(log: Log, req: Request, now: int, rs: seq<(Request, int)>, n: nat)
    requires Numbered(log) && AtMost(log, n) && n < MAX_UINT64 && Lists(log, rs)
    ensures Lists(Added(log, req, now), rs + [(req, now)])
  {
    AddedStores(log, req, now, n);
    var log', at := Added(log, req, now), NewLocator(log, req);
    BelongsToIff(req, at.session);
    forall k: Uint64 | 1 <= k <= |rs| + 1
      ensures Records(Stored(log', log'.index[k]), (rs + [(req, now)])[k - 1])
      ensures BelongsTo((rs + [(req, now)])[k - 1].0, log'.index[k].session)
    {
      if k <= |rs| {
        assert Records(Stored(log, log.index[k]), rs[k - 1]);
      }
    }
  }

  /** A log with the same index whose actions record the same requests. */
  ghost predicate SameRecords(log: Log, log': Log) {
    && log'.sequence == log.sequence && log'.index == log.index
    && forall at, r :: Records(Stored(log, at), r) ==> Records(Stored(log', at), r)
  }

  lemma SameLists(log: Log, log': Log, rs: seq<(Request, int)>)
    requires Lists(log, rs) && SameRecords(log, log')
    ensures Lists(log', rs)
  {
  }

  lemma MarkKeepsRecords(w: World, e: Event, n: nat)
    requires Inv(w, n) && e.Mark?
    ensures SameRecords(w.log, Next(w, e).log)
  {
    if e.reqID in w.live {
      assert Open(w, w.live[e.reqID]);
      StateSetKeepsIndexed(w.log, w.live[e.reqID], e.state, e.reason, n);
    }
  }

  lemma StepLists(w: World, e: Event, rs: seq<(Request, int)>, n: nat)
    requires Inv(w, n) && Enabled(w, e) && n < MAX_UINT64 && Lists(w.log, rs)
    ensures Lists(Next(w, e).log, rs + AddedBy(e))
  {
    assert rs + [] == rs;
    if e.Add? && e.stored {
      AddLists(w.log, e.req, e.now, rs, n);
    } else if e.Mark? {
      MarkKeepsRecords(w, e, n);
      SameLists(w.log, Next(w, e).log, rs);
    }
  }

  lemma {:induction false} RunLists(w: World, es: seq<Event>, rs: seq<(Request, int)>, n: nat)
    requires Inv(w, n) && IsRun(w, es) && n + |es| < TWO_64 && Lists(w.log, rs)
    ensures Lists(Final(w, es).log, rs + AllRequests(es))
    decreases |es|
  {
    if es == [] {
      assert rs + [] == rs;
    } else {
      StepKeeps(w, es[0], n);
      StepLists(w, es[0], rs, n);
      RunLists(Next(w, es[0]), es[1..], rs + AddedBy(es[0]), n + 1);
      Joined(rs, AddedBy(es[0]), AllRequests(es[1..]));
    }
  }

  /** After every run the index lists all stored requests in the order they came. */
  lemma IndexListsAllRequests(es: seq<Event>)
    requires IsRun(INITIAL, es) && |es| < TWO_64
    ensures Lists(Final(INITIAL, es).log, AllRequests(es))
  {
    RunLists(INITIAL, es, [], 0);
    assert [] + AllRequests(es) == AllRequests(es);
  }

  /** So the listing of all actions shows the wanted ones of exactly these requests. */
  lemma ListingShowsRequests(es: seq<Event>, now: int, q: Query, opts: Options, k: Uint64)
    requires IsRun(INITIAL, es) && |es| < TWO_64 && SteadyClock(es, now)
    ensures var log, rs := Final(INITIAL, es).log, AllRequests(es);
            |rs| < TWO_64 &&
            var keys, read := Upto(|rs|), IndexReader(log);
            && (k in Unlimited(keys, q, Filtering(read, opts, q.reversed)) <==>
                k in Trail(keys, StartOf(keys, q), q.reversed) && Wanted(read(k), opts))
            && (1 <= k <= |rs| ==> read(k).details == rs[k - 1].0.details && read(k).attemptedAt == rs[k - 1].1)
  {
    IndexListsAllRequests(es);
    ListingIsFiltering(es, now, q, opts);
    var log, rs := Final(INITIAL, es).log, AllRequests(es);
    var keys, read := Upto(|rs|), IndexReader(log);
    SelectMembers(Trail(keys, StartOf(keys, q), q.reversed), read, opts, k);
    if 1 <= k <= |rs| {
      assert Records(Stored(log, log.index[k]), rs[k - 1]);
    }
  }

  /** Unset options ask for nothing; each one that is set cuts down what is wanted. */
  lemma EachOptionFilters(a: Action, opts: Options, name: string, t: int)
    requires name != ""
    ensures Wanted(a, Options("", "", "", 0, None, None))
    ensures Wanted(a, opts.(feature := name)) <==> a.details.feature == name && Wanted(a, opts.(feature := ""))
    ensures Wanted(a, opts.(actor := name)) <==> a.details.actor == name && Wanted(a, opts.(actor := ""))
    ensures Wanted(a, opts.(rpcMethod := name)) <==> a.details.rpcMethod == name && Wanted(a, opts.(rpcMethod := ""))
    ensures opts.state != 0 ==> (Wanted(a, opts) <==> a.state == opts.state && Wanted(a, opts.(state := 0)))
    ensures Wanted(a, opts.(startTime := Some(t))) <==> t <= a.attemptedAt && Wanted(a, opts.(startTime := None))
    ensures Wanted(a, opts.(endTime := Some(t))) <==> a.attemptedAt <= t && Wanted(a, opts.(endTime := None))
  {
  }

  // ---- How an action ends ----

  /** A change of state is refused exactly if it gives a reason without being an error. */
  lemma StateSetIff(log: Log, at: Locator, state: Byte, reason: string, n: nat)
    requires Indexed(log) && AtMost(log, n) && Stored(log, at).Some?
    ensures var r := StateSet(log, at, state, reason);
            && (r.Some? <==> reason == "" || state == 3)
            && (r.Some? ==> Stored(r.value, at) == Some(Stored(log, at).value.(state := state, errorReason := reason)))
  {
    StateSetKeepsIndexed(log, at, state, reason, n);
  }

  /** The events that take a request id out of the logger's map. */
  ghost predicate Forgets(e: Event, reqID: Uint64) {
    e.Restart? || ((e.Register? || e.Mark?) && e.reqID == reqID)
  }

  lemma StepStaysLive(w: World, e: Event, reqID: Uint64, n: nat)
    requires Inv(w, n) && Enabled(w, e) && n < MAX_UINT64 && reqID in w.live && !Forgets(e, reqID)
    ensures var w' := Next(w, e);
            && reqID in w'.live && w'.live[reqID] == w.live[reqID]
            && Stored(w'.log, w.live[reqID]) == Stored(w.log, w.live[reqID])
  {
    assert Open(w, w.live[reqID]);
    if e.Add? {
      AddKeepsInv(w, e, n);
    } else if e.Mark? && e.reqID in w.live {
      assert Open(w, w.live[e.reqID]);
      StateSetKeepsIndexed(w.log, w.live[e.reqID], e.state, e.reason, n);
    }
  }

  lemma {:induction false} StaysLive(w: World, es: seq<Event>, reqID: Uint64, n: nat)
    requires Inv(w, n) && IsRun(w, es) && n + |es| < TWO_64 && reqID in w.live
    requires forall e :: e in es ==> !Forgets(e, reqID)
    ensures var w' := Final(w, es);
            && Inv(w', n + |es|) && reqID in w'.live && w'.live[reqID] == w.live[reqID]
            && Stored(w'.log, w.live[reqID]) == Stored(w.log, w.live[reqID])
    decreases |es|
  {
    if es != [] {
      var e := es[0];
      assert e in es;
      StepKeeps(w, e, n);
      StepStaysLive(w, e, reqID, n);
      StaysLive(Next(w, e), es[1..], reqID, n + 1);
    }
  }

  /** Whatever happens to other requests in between, the response to a request decides the
      state of its own action: the details stay, state and reason are the reported ones. */
  lemma ResponseDecides(w: World, reqID: Uint64, es: seq<Event>, state: Byte, reason: string, n: nat)
    requires Inv(w, n) && IsRun(w, es) && n + |es| < TWO_64 && reqID in w.live
    requires forall e :: e in es ==> !Forgets(e, reqID)
    requires reason == "" || state == 3
    ensures var at, w' := w.live[reqID], Next(Final(w, es), Mark(reqID, state, reason, true));
            && Stored(w.log, at).Some?
            && Stored(w'.log, at) == Some(Stored(w.log, at).value.(state := state, errorReason := reason))
            && !Open(w', at)
  {
    StaysLive(w, es, reqID, n);
    var w1 := Final(w, es);
    assert Open(w, w.live[reqID]);
    StateSetIff(w1.log, w.live[reqID], state, reason, n + |es|);
  }
}
