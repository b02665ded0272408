/** What a restart does: it takes up every payment that has not succeeded again. */
module Restart {
  import opened AccountTypes
  import opened AccountStore
  import opened PaymentTotals
  import opened ServiceSpec
  import opened Protocol
  import opened Finality
  import opened Ledger

  /** Same accounts, balances, invoices and payment amounts; a settled payment stays
      settled and no other payment becomes settled. */
  ghost predicate SameMoney(st: Store, st': Store) {
    && st'.accounts.Keys == st.accounts.Keys
    && forall id :: id in st.accounts ==> SameMoneyIn(st.accounts[id], st'.accounts[id])
  }

  ghost predicate SameMoneyIn(a: Account, a': Account) {
    && a'.balance == a.balance && a'.initialBalance == a.initialBalance && a'.invoices == a.invoices
    && a'.payments.Keys == a.payments.Keys
    && forall h :: h in a.payments ==> SameAmount(a.payments[h], a'.payments[h])
  }

  /** The same amount, and settled or not as before; what was in flight stays so. */
  predicate SameAmount(e: PaymentEntry, e': PaymentEntry) {
    && e'.fullAmount == e.fullAmount
    && (SuccessState(e'.status) <==> SuccessState(e.status))
    && (InflightState(e.status) ==> InflightState(e'.status))
  }

  /** A payment that a restart has to take up again. */
  ghost predicate Resumable(st: Store, id: AccountID, h: Hash) {
    id in st.accounts && h in st.accounts[id].payments && !SuccessState(st.accounts[id].payments[h].status)
  }

  lemma TrackKeepsMoney(s: Service, st0: Store, id: AccountID, h: Hash, amount: Msat, f: TrackFaults)
    requires SameMoney(st0, s.store)
    requires Resumable(st0, id, h) && amount == st0.accounts[id].payments[h].fullAmount
    ensures SameMoney(st0, TrackPayment(s, id, h, amount, f).svc.store)
  {
    TrackResult(s, id, h, amount, f);
    var a := s.store.accounts[id];
    assert SameMoneyIn(st0.accounts[id], a);
    var a' := a.(payments := a.payments[h := PaymentEntry(UNKNOWN, amount)]);
    assert SameMoneyIn(st0.accounts[id], a');
  }

  /** Tracking a payment that has not succeeded reaches the tracked ones unless
      something fails. */
  lemma TrackReaches(s: Service, id: AccountID, h: Hash, amount: Msat, f: TrackFaults)
    requires s.enabled && Resumable(s.store, id, h)
    ensures var r := TrackPayment(s, id, h, amount, f);
            && r.svc.store.indexes == s.store.indexes && s.pending.Keys <= r.svc.pending.Keys
            && (r.error.None? ==> r.svc.enabled && h in r.svc.pending)
  {
  }

  lemma TrackStaysEnabled(s: Service, id: AccountID, h: Hash, amount: Msat, f: TrackFaults)
    requires s.enabled
    ensures var r := TrackPayment(s, id, h, amount, f); r.error.None? ==> r.svc.enabled
  {
  }

  // ---- Runs that start the service ----

  ghost predicate AllTracks(es: seq<Event>) {
    forall e :: e in es ==> e.Life? && e.life.StartTrack?
  }

  /** How far the start is: the money is as it was, and every payment to be taken up is
      still to come or is tracked. */
  ghost predicate Progress(w: World, st0: Store) {
    && SameMoney(st0, w.svc.store) && w.svc.store.indexes == st0.indexes && PendingAgrees(w.svc)
    && (w.phase.Starting? ==> w.svc.enabled && StillToCome(w, st0))
  }

  ghost predicate StillToCome(w: World, st0: Store)
    requires w.phase.Starting?
  {
    && (forall k :: k in w.phase.todo ==>
          Resumable(st0, k.0, k.1) && w.phase.todo[k] == st0.accounts[k.0].payments[k.1].fullAmount)
    && (forall id, h :: Resumable(st0, id, h) ==> (id, h) in w.phase.todo || h in w.svc.pending)
  }

  lemma RestartedProgress(w: World, mapped: map<Hash, AccountID>)
    requires LifeEnabled(w, Restart(mapped, false))
    ensures Progress(LifeNext(w, Restart(mapped, false)), w.svc.store)
  {
  }

  lemma TrackLeaves(w: World, e: LifeEvent, st0: Store)
    requires w.phase.Starting? && w.svc.enabled && StillToCome(w, st0) && LifeEnabled(w, e) && e.StartTrack?
    requires Resumable(w.svc.store, e.id, e.hash)
    ensures var w' := LifeNext(w, e); w'.phase.Starting? ==> w'.svc.enabled && StillToCome(w', st0)
  {
    TrackReaches(w.svc, e.id, e.hash, w.phase.todo[(e.id, e.hash)], e.faults);
  }

  lemma TrackProgress(w: World, e: LifeEvent, st0: Store)
    requires Progress(w, st0) && LifeEnabled(w, e) && e.StartTrack?
    ensures Progress(LifeNext(w, e), st0)
  {
    var amount := w.phase.todo[(e.id, e.hash)];
    assert SameMoneyIn(st0.accounts[e.id], w.svc.store.accounts[e.id]);
    assert Resumable(w.svc.store, e.id, e.hash);
    TrackKeepsMoney(w.svc, st0, e.id, e.hash, amount, e.faults);
    TrackReaches(w.svc, e.id, e.hash, amount, e.faults);
    AgreesIsSound(w.svc);
    TrackKeepsPending(w.svc, e.id, e.hash, amount, e.faults);
    TrackLeaves(w, e, st0);
    var w', s' := LifeNext(w, e), TrackPayment(w.svc, e.id, e.hash, amount, e.faults).svc;
    AgreesStill(s', w'.svc);
  }

  lemma {:induction false} TracksProgress(w: World, es: seq<Event>, st0: Store)
    requires Progress(w, st0) && IsRun(w, es) && AllTracks(es)
    ensures Progress(After(w, es), st0)
    decreases |es|
  {
    if es != [] {
      assert es[0] in es;
      TrackProgress(w, es[0].life, st0);
      TracksProgress(Next(w, es[0]), es[1..], st0);
    }
  }

  // ---- What a restart withholds ----

  /** The amounts of an account's FAILED payments. */
  ghost function Failed(a: Account): int {
    Total(a.payments, FailedWeight)
  }

  function FailedWeight(e: PaymentEntry): int {
    if e.status == FAILED then e.fullAmount else 0
  }

  /** No other account has to take up one of this account's payments. */
  ghost predicate Unshared(st: Store, id: AccountID) {
    forall i, h :: Resumable(st, id, h) && Resumable(st, i, h) ==> i == id
  }

  /** Whatever a restart takes up, it withholds at most the FAILED amounts. */
  lemma WithholdsAtMostFailed(a: Account, a': Account)
    requires SameMoneyIn(a, a')
    ensures Slack(a) - Failed(a) <= Slack(a') <= Slack(a)
  {
    TotalMonotone(a.payments, a'.payments, InFlightWeight);
    TotalAtMostSum(a.payments, a'.payments, InFlightWeight, InFlightWeight, FailedWeight);
  }

  /** Taking up everything withholds all the FAILED amounts. */
  lemma WithholdsAllFailed(a: Account, a': Account)
    requires SameMoneyIn(a, a')
    requires forall h :: h in a'.payments && !SuccessState(a'.payments[h].status) ==> InflightState(a'.payments[h].status)
    ensures Slack(a') == Slack(a) - Failed(a)
  {
    WithholdsAtMostFailed(a, a');
    TotalAtLeastSum(a.payments, a'.payments, InFlightWeight, InFlightWeight, FailedWeight);
  }

  /** An account all of whose unsettled payments are in flight again. */
  lemma TakenUpWithholds(w: World, st: Store, id: AccountID)
    requires Progress(w, st) && id in st.accounts && forall h :: Resumable(st, id, h) ==> IsInFlight(w.svc, id, h)
    ensures id in Accounts(w) && Slack(Accounts(w)[id]) == Slack(st.accounts[id]) - Failed(st.accounts[id])
  {
    var a, a' := st.accounts[id], Accounts(w)[id];
    assert SameMoneyIn(a, a');
    forall h | h in a'.payments && !SuccessState(a'.payments[h].status) ensures InflightState(a'.payments[h].status) {
      assert SameAmount(a.payments[h], a'.payments[h]) && Resumable(st, id, h);
    }
    WithholdsAllFailed(a, a');
  }

  /** An account that shares no payment with another one is covered after everything was
      taken up, in whatever order, if and only if its balance covers what was in flight
      and what had FAILED. */
  lemma UnsharedCoveredIff(w: World, st: Store, id: AccountID)
    requires Progress(w, st) && w.phase == Starting(map[]) && id in st.accounts && Unshared(st, id)
    ensures id in Accounts(w)
    ensures Slack(Accounts(w)[id]) >= 0 <==> st.accounts[id].balance >= InFlight(st.accounts[id]) + Failed(st.accounts[id])
  {
    forall h | Resumable(st, id, h) ensures IsInFlight(w.svc, id, h) {
      var i := w.svc.pending[h].account;
      assert IsInFlight(w.svc, i, h) && SameMoneyIn(st.accounts[i], Accounts(w)[i]);
      assert SameAmount(st.accounts[i].payments[h], Accounts(w)[i].payments[h]) && Resumable(st, i, h);
    }
    TakenUpWithholds(w, st, id);
  }

  // ---- All orders of taking up ----

  const NO_FAULTS := TrackFaults(false, true, false)

  /** One payment was taken up: it is off the list, what was in flight stays so, and it is
      in flight itself if its hash was not tracked yet. */
  ghost predicate Took(w: World, w': World, k: (AccountID, Hash))
    requires w.phase.Starting?
  {
    && k in w.phase.todo && w'.phase == Starting(w.phase.todo - {k})
    && (forall i, h :: IsInFlight(w.svc, i, h) ==> IsInFlight(w'.svc, i, h))
    && (k.1 !in w.svc.pending ==> IsInFlight(w'.svc, k.0, k.1))
    && w'.svc.pending.Keys <= w.svc.pending.Keys + {k.1}
  }

  /** Tracking a stored payment that has not succeeded works if nothing fails. */
  lemma TrackWorks(s: Service, id: AccountID, h: Hash, amount: Msat)
    requires s.enabled && Resumable(s.store, id, h)
    ensures TrackPayment(s, id, h, amount, NO_FAULTS).error.None?
  {
  }

  lemma TrackKeepsFlights(s: Service, id: AccountID, h: Hash, amount: Msat, f: TrackFaults)
    ensures var s' := TrackPayment(s, id, h, amount, f).svc;
            && (forall i, k :: IsInFlight(s, i, k) ==> IsInFlight(s', i, k))
            && s'.pending.Keys <= s.pending.Keys + {h}
  {
    TrackEffect(s, id, h, amount, f);
  }

  lemma TakeOne(w: World, st0: Store, k: (AccountID, Hash))
    requires Progress(w, st0) && w.phase.Starting? && k in w.phase.todo
    ensures var e := StartTrack(k.0, k.1, NO_FAULTS);
            LifeEnabled(w, e) && Progress(LifeNext(w, e), st0) && Took(w, LifeNext(w, e), k)
  {
    var s, e := w.svc, StartTrack(k.0, k.1, NO_FAULTS);
    TrackProgress(w, e, st0);
    assert SameMoneyIn(st0.accounts[k.0], s.store.accounts[k.0]);
    assert SameAmount(st0.accounts[k.0].payments[k.1], s.store.accounts[k.0].payments[k.1]);
    TrackWorks(s, k.0, k.1, w.phase.todo[k]);
    TrackKeepsFlights(s, k.0, k.1, w.phase.todo[k], NO_FAULTS);
    if k.1 !in s.pending {
      TrackReaches(s, k.0, k.1, w.phase.todo[k], NO_FAULTS);
      TrackEffect(s, k.0, k.1, w.phase.todo[k], NO_FAULTS);
    }
  }

  /** Every unsettled payment of the account is in flight. */
  ghost predicate OwnInFlight(s: Service, st0: Store, id: AccountID) {
    forall h :: Resumable(st0, id, h) ==> IsInFlight(s, id, h)
  }

  /** Those of the account that are still to come are not tracked for another one. */
  ghost predicate OwnAhead(w: World, st0: Store, id: AccountID)
    requires w.phase.Starting?
  {
    && (forall h :: h in w.svc.pending ==> (id, h) !in w.phase.todo)
    && (forall h :: Resumable(st0, id, h) ==> (id, h) in w.phase.todo || IsInFlight(w.svc, id, h))
  }

  lemma OwnStaysInFlight(w: World, w': World, st0: Store, k: (AccountID, Hash), id: AccountID)
    requires w.phase.Starting? && Took(w, w', k) && OwnInFlight(w.svc, st0, id)
    ensures OwnInFlight(w'.svc, st0, id)
  {
  }

  lemma OwnStaysAhead(w: World, w': World, st0: Store, id: AccountID, h: Hash)
    requires w.phase.Starting? && Took(w, w', (id, h)) && OwnAhead(w, st0, id)
    ensures OwnAhead(w', st0, id)
  {
  }

  /** A run of a start that took everything up. */
  ghost predicate Complete(w: World, tracks: seq<Event>) {
    IsRun(w, tracks) && AllTracks(tracks) && After(w, tracks).phase == Starting(map[])
  }

  lemma PrependTrack(w: World, e: LifeEvent, tracks: seq<Event>)
    requires LifeEnabled(w, e) && e.StartTrack? && IsRun(LifeNext(w, e), tracks) && AllTracks(tracks)
    ensures var all := [Life(e)] + tracks;
            IsRun(w, all) && AllTracks(all) && After(w, all) == After(LifeNext(w, e), tracks)
  {
    assert ([Life(e)] + tracks)[1..] == tracks;
  }

  /** The run takes everything up and leaves the account's payments in flight. */
  ghost predicate TakesAll(w: World, tracks: seq<Event>, st0: Store, id: AccountID) {
    Complete(w, tracks) && Progress(After(w, tracks), st0) && OwnInFlight(After(w, tracks).svc, st0, id)
  }

  lemma TakesAllFrom(w: World, e: LifeEvent, tracks: seq<Event>, st0: Store, id: AccountID)
    requires LifeEnabled(w, e) && e.StartTrack? && TakesAll(LifeNext(w, e), tracks, st0, id)
    ensures TakesAll(w, [Life(e)] + tracks, st0, id)
  {
    PrependTrack(w, e, tracks);
  }

  lemma NothingLeft(w: World, st0: Store, id: AccountID)
    requires Progress(w, st0) && w.phase.Starting? && w.phase.todo.Keys == {} && OwnInFlight(w.svc, st0, id)
    ensures TakesAll(w, [], st0, id)
  {
    assert w.phase.todo == map[];
  }

  lemma Fewer(m: map<(AccountID, Hash), Msat>, k: (AccountID, Hash))
    requires k in m
    ensures |m - {k}| < |m|
  {
    var n := m - {k};
    assert m.Keys == n.Keys + {k};
    assert |m| == |m.Keys| && |n| == |n.Keys|;
  }

  /** Whatever is left can be taken up, and what is in flight stays so. */
  lemma {:induction false} TakeRest(w: World, st0: Store, id: AccountID) returns (tracks: seq<Event>)
    requires Progress(w, st0) && w.phase.Starting? && OwnInFlight(w.svc, st0, id)
    ensures TakesAll(w, tracks, st0, id)
    decreases |w.phase.todo|
  {
    if w.phase.todo.Keys == {} {
      NothingLeft(w, st0, id);
      tracks := [];
    } else {
      var k :| k in w.phase.todo.Keys;
      var e := StartTrack(k.0, k.1, NO_FAULTS);
      TakeOne(w, st0, k);
      Fewer(w.phase.todo, k);
      OwnStaysInFlight(w, LifeNext(w, e), st0, k, id);
      var rest := TakeRest(LifeNext(w, e), st0, id);
      TakesAllFrom(w, e, rest, st0, id);
      tracks := [Life(e)] + rest;
    }
  }

  /** The account's own payments can be taken up first, all of them. */
  lemma {:induction false} TakeOwnFirst(w: World, st0: Store, id: AccountID) returns (tracks: seq<Event>)
    requires Progress(w, st0) && w.phase.Starting? && OwnAhead(w, st0, id)
    ensures TakesAll(w, tracks, st0, id)
    decreases |w.phase.todo|
  {
    if h: Hash :| (id, h) in w.phase.todo {
      var e := StartTrack(id, h, NO_FAULTS);
      TakeOne(w, st0, (id, h));
      Fewer(w.phase.todo, (id, h));
      OwnStaysAhead(w, LifeNext(w, e), st0, id, h);
      var rest := TakeOwnFirst(LifeNext(w, e), st0, id);
      TakesAllFrom(w, e, rest, st0, id);
      tracks := [Life(e)] + rest;
    } else {
      tracks := TakeRest(w, st0, id);
    }
  }

  /** The exact condition for a restart: whatever the order in which the payments are
      taken up again, the account is covered in the end, if and only if its balance covers
      what was in flight and what had FAILED. */
  lemma RestartCoveredIff(w: World, mapped: map<Hash, AccountID>, id: AccountID)
    requires LifeEnabled(w, Restart(mapped, false)) && id in Accounts(w)
    ensures var w0 := LifeNext(w, Restart(mapped, false));
            (forall tracks :: Complete(w0, tracks) ==> CoveredAfter(w0, tracks, id)) <==>
            Accounts(w)[id].balance >= InFlight(Accounts(w)[id]) + Failed(Accounts(w)[id])
  {
    var w0, st := LifeNext(w, Restart(mapped, false)), w.svc.store;
    RestartedProgress(w, mapped);
    if Accounts(w)[id].balance >= InFlight(Accounts(w)[id]) + Failed(Accounts(w)[id]) {
      forall tracks | Complete(w0, tracks) ensures CoveredAfter(w0, tracks, id) {
        TracksProgress(w0, tracks, st);
        WithholdsAtMostFailed(Accounts(w)[id], Accounts(After(w0, tracks))[id]);
      }
    } else {
      var tracks := TakeOwnFirst(w0, st, id);
      TakenUpWithholds(After(w0, tracks), st, id);
    }
  }

  ghost predicate CoveredAfter(w: World, tracks: seq<Event>, id: AccountID)
    requires IsRun(w, tracks)
  {
    id in Accounts(After(w, tracks)) && Slack(Accounts(After(w, tracks))[id]) >= 0
  }

  // ---- The start of the running program as a run ----

  /** The state of a world, but for the invoices mapped so far. */
  ghost predicate SameBut(w: World, s: Service) {
    w.svc == s.(invoiceToAccount := w.svc.invoiceToAccount)
  }

  /** Tracking does not look at the mapped invoices. */
  lemma TrackSame(s: Service, m: map<Hash, AccountID>, id: AccountID, h: Hash, amount: Msat, f: TrackFaults)
    ensures var r := TrackPayment(s, id, h, amount, f);
            TrackPayment(s.(invoiceToAccount := m), id, h, amount, f) == Step(r.svc.(invoiceToAccount := m), r.error)
  {
  }

  /** The payments were taken up as far as the state says. */
  ghost predicate Tracking(w0: World, tracks: seq<Event>, s: Service, todo: map<(AccountID, Hash), Msat>) {
    && IsRun(w0, tracks) && AllTracks(tracks)
    && After(w0, tracks).phase == Starting(todo) && SameBut(After(w0, tracks), s)
  }

  /** Taking up ended with an error, and the service is disabled. */
  ghost predicate Stopped(w0: World, tracks: seq<Event>, s: Service) {
    && IsRun(w0, tracks) && AllTracks(tracks)
    && IsIdle(After(w0, tracks)) && SameBut(After(w0, tracks), s.(enabled := false))
  }

  lemma {:induction false} RunAppend(w: World, es: seq<Event>, e: Event)
    requires IsRun(w, es) && Enabled(After(w, es), e)
    ensures IsRun(w, es + [e]) && After(w, es + [e]) == Next(After(w, es), e)
    decreases |es|
  {
    if es == [] {
      assert [e][1..] == [] && es + [e] == [e];
    } else {
      assert (es + [e])[1..] == es[1..] + [e];
      RunAppend(Next(w, es[0]), es[1..], e);
    }
  }

  /** One call of TrackPayment is one step of the run. */
  lemma TakeUp(w0: World, tracks: seq<Event>, s: Service, todo: map<(AccountID, Hash), Msat>, id: AccountID, h: Hash, f: TrackFaults)
    requires Tracking(w0, tracks, s, todo) && (id, h) in todo
    ensures var r := TrackPayment(s, id, h, todo[(id, h)], f);
            var tracks' := tracks + [Life(StartTrack(id, h, f))];
            if r.error.None? then Tracking(w0, tracks', r.svc, todo - {(id, h)}) else Stopped(w0, tracks', r.svc)
  {
    var w, e := After(w0, tracks), Life(StartTrack(id, h, f));
    RunAppend(w0, tracks, e);
    TrackSame(s, w.svc.invoiceToAccount, id, h, todo[(id, h)], f);
  }

  /** The mapping of a world replaced. */
  ghost function Remapped(w: World, m: map<Hash, AccountID>): World {
    w.(svc := w.svc.(invoiceToAccount := m))
  }

  lemma {:induction false} RemapRun(w: World, tracks: seq<Event>, m: map<Hash, AccountID>)
    requires IsRun(w, tracks) && AllTracks(tracks)
    ensures IsRun(Remapped(w, m), tracks) && After(Remapped(w, m), tracks) == Remapped(After(w, tracks), m)
    decreases |tracks|
  {
    if tracks != [] {
      assert tracks[0] in tracks;
      var e := tracks[0].life;
      TrackSame(w.svc, m, e.id, e.hash, w.phase.todo[(e.id, e.hash)], e.faults);
      assert Next(Remapped(w, m), tracks[0]) == Remapped(Next(w, tracks[0]), m);
      RemapRun(Next(w, tracks[0]), tracks[1..], m);
    }
  }

  lemma RestartThen(w: World, m: map<Hash, AccountID>, es: seq<Event>)
    requires MapsAllInvoices(w.svc.store, m) && IsRun(LifeNext(w, Restart(m, false)), es)
    ensures var all := [Life(Restart(m, false))] + es;
            IsRun(w, all) && After(w, all) == After(LifeNext(w, Restart(m, false)), es)
  {
    assert ([Life(Restart(m, false))] + es)[1..] == es;
  }

  // ---- Mapping the invoices ----

  ghost predicate SomeInvoice(st: Store, id: AccountID, h: Hash) {
    id in st.accounts && h in st.accounts[id].invoices
  }

  /** Some mapping of all stored invoices exists. */
  ghost function AnyMapping(st: Store): (m: map<Hash, AccountID>)
    ensures MapsAllInvoices(st, m)
  {
    var hs := set id, h | id in st.accounts && h in st.accounts[id].invoices :: h;
    map h | h in hs :: var id :| SomeInvoice(st, id, h); id
  }

  /** The invoices of all accounts but the given ones are mapped. */
  ghost predicate MapsBut(st: Store, m: map<Hash, AccountID>, todo: set<AccountID>) {
    && (forall h :: h in m ==> SomeInvoice(st, m[h], h))
    && (forall id, h :: SomeInvoice(st, id, h) && id !in todo ==> h in m)
  }

  lemma MapsOneMore(st: Store, m: map<Hash, AccountID>, m': map<Hash, AccountID>, todo: set<AccountID>, id: AccountID)
    requires MapsBut(st, m, todo) && id in st.accounts
    requires m'.Keys == m.Keys + st.accounts[id].invoices
    requires forall h :: h in m' ==> m'[h] == if h in st.accounts[id].invoices then id else m[h]
    ensures MapsBut(st, m', todo - {id})
  {
  }

  lemma SameMoneySameInvoices(st: Store, st': Store, m: map<Hash, AccountID>)
    requires SameMoney(st, st') && MapsBut(st, m, {})
    ensures MapsAllInvoices(st', m)
  {
    forall id, h | id in st'.accounts && h in st'.accounts[id].invoices ensures h in m {
      assert SomeInvoice(st, id, h);
    }
    forall h | h in m ensures m[h] in st'.accounts && h in st'.accounts[m[h]].invoices {
      assert SomeInvoice(st, m[h], h);
    }
  }

  // ---- The outcomes of Start ----

  /** What is left for some accounts, of one of which some payments. */
  ghost function Left(st: Store, accounts: set<AccountID>): map<(AccountID, Hash), Msat> {
    map k | k in ToTrack(st) && k.0 in accounts :: ToTrack(st)[k]
  }

  ghost function LeftOf(todo: map<(AccountID, Hash), Msat>, id: AccountID, hs: set<Hash>): map<(AccountID, Hash), Msat> {
    map k | k in todo && (k.0 != id || k.1 in hs) :: todo[k]
  }

  lemma LeftTakesOff(st: Store, accounts: set<AccountID>, id: AccountID)
    ensures LeftOf(Left(st, accounts), id, {}) == Left(st, accounts - {id})
  {
  }

  /** What every outcome of a start keeps. */
  lemma StartKeeps(before: World, m: map<Hash, AccountID>, tracks: seq<Event>, s: Service)
    requires MapsAllInvoices(before.svc.store, m)
    requires var w0 := LifeNext(before, Restart(m, false));
             IsRun(w0, tracks) && AllTracks(tracks) &&
             After(w0, tracks).svc.store == s.store && After(w0, tracks).svc.pending == s.pending
    ensures SameMoney(before.svc.store, s.store) && s.store.indexes == before.svc.store.indexes && PendingAgrees(s)
    ensures After(LifeNext(before, Restart(m, false)), tracks).phase == Starting(map[]) ==>
              forall id, h :: Resumable(s.store, id, h) ==> h in s.pending
  {
    var w0 := LifeNext(before, Restart(m, false));
    RestartedProgress(before, m);
    TracksProgress(w0, tracks, before.svc.store);
    var w := After(w0, tracks);
    if w.phase == Starting(map[]) {
      forall id, h | Resumable(s.store, id, h) ensures h in s.pending {
        assert SameMoneyIn(before.svc.store.accounts[id], s.store.accounts[id]);
        assert SameAmount(before.svc.store.accounts[id].payments[h], s.store.accounts[id].payments[h]);
        assert Resumable(before.svc.store, id, h);
      }
    }
  }

  /** The run of a start that took everything up and then subscribed, or failed to. */
  lemma StartEnds(before: World, any: map<Hash, AccountID>, m: map<Hash, AccountID>, tracks: seq<Event>, s: Service, fails: bool)
    requires MapsAllInvoices(before.svc.store, any) && MapsAllInvoices(before.svc.store, m)
    requires Tracking(LifeNext(before, Restart(any, false)), tracks, s, map[])
    ensures var es := [Life(Restart(m, false))] + (tracks + [Life(StartSubscribe(fails))]);
            && IsRun(before, es) && IsIdle(After(before, es))
            && After(before, es).svc == if fails then s.(invoiceToAccount := m, enabled := false)
                                        else s.(invoiceToAccount := m, current := KnownIndexes(s.store))
  {
    var w0 := LifeNext(before, Restart(any, false));
    RemapRun(w0, tracks, m);
    var w1 := LifeNext(before, Restart(m, false));
    assert w1 == Remapped(w0, m);
    RunAppend(w1, tracks, Life(StartSubscribe(fails)));
    RestartThen(before, m, tracks + [Life(StartSubscribe(fails))]);
  }

  lemma LeftAll(st: Store)
    ensures Left(st, st.accounts.Keys) == ToTrack(st) && Left(st, {}) == map[]
  {
    assert Left(st, st.accounts.Keys).Keys == ToTrack(st).Keys;
    assert Left(st, {}).Keys == {};
  }

  lemma LeftOfAll(st: Store, accounts: set<AccountID>, id: AccountID)
    requires id in st.accounts
    ensures LeftOf(Left(st, accounts), id, st.accounts[id].payments.Keys) == Left(st, accounts)
  {
    assert LeftOf(Left(st, accounts), id, st.accounts[id].payments.Keys).Keys == Left(st, accounts).Keys;
  }

  /** Of one account, a payment is left with its amount exactly if it has not succeeded;
      taking it off the list leaves the others. */
  lemma LeftOne(st: Store, accounts: set<AccountID>, id: AccountID, h: Hash, hs: set<Hash>)
    requires id in accounts && id in st.accounts && h in st.accounts[id].payments && h in hs
    ensures var left := LeftOf(Left(st, accounts), id, hs);
            var e := st.accounts[id].payments[h];
            && ((id, h) in left <==> !SuccessState(e.status))
            && ((id, h) in left ==> left[(id, h)] == e.fullAmount)
            && LeftOf(Left(st, accounts), id, hs - {h}) == if SuccessState(e.status) then left else left - {(id, h)}
  {
    var all := Left(st, accounts);
    var left, less := LeftOf(all, id, hs), LeftOf(all, id, hs - {h});
    assert less.Keys == left.Keys - {(id, h)};
    if SuccessState(st.accounts[id].payments[h].status) {
      assert less.Keys == left.Keys;
    }
  }

  lemma BeginsTracking(before: World, m: map<Hash, AccountID>, s: Service)
    requires MapsAllInvoices(before.svc.store, m)
    requires s == Service(before.svc.store, true, Indexes(0, 0), map[], map[], map[])
    ensures Tracking(LifeNext(before, Restart(m, false)), [], s, ToTrack(before.svc.store))
  {
  }

  /** What a start is and leaves: a run of the protocol from a restart on, with the same
      outcome but for the invoices mapped when it fails; the same money; and, if it
      succeeds, all invoices mapped and every payment that has not succeeded tracked. */
  ghost predicate Started(before: World, es: seq<Event>, s: Service) {
    && IsRun(before, es) && IsIdle(After(before, es)) && SameBut(After(before, es), s)
    && SameMoney(before.svc.store, s.store) && PendingAgrees(s)
    && (s.enabled ==>
          && After(before, es).svc == s
          && s.current == KnownIndexes(s.store) && MapsAllInvoices(s.store, s.invoiceToAccount)
          && forall id, h :: Resumable(s.store, id, h) ==> h in s.pending)
  }

  lemma AgreesStill(s: Service, s': Service)
    requires PendingAgrees(s) && s'.store == s.store && s'.pending == s.pending
    ensures PendingAgrees(s')
  {
  }

  /** A start that took everything up and then subscribed, or failed to. */
  lemma StartSucceeds(before: World, any: map<Hash, AccountID>, tracks: seq<Event>, s: Service, fails: bool)
    requires MapsAllInvoices(before.svc.store, any) && MapsBut(before.svc.store, s.invoiceToAccount, {}) && s.enabled
    requires Tracking(LifeNext(before, Restart(any, false)), tracks, s, map[])
    ensures var es := [Life(Restart(s.invoiceToAccount, false))] + (tracks + [Life(StartSubscribe(fails))]);
            Started(before, es, if fails then s.(enabled := false) else s.(current := KnownIndexes(s.store)))
  {
    var s' := if fails then s.(enabled := false) else s.(current := KnownIndexes(s.store));
    StartKeeps(before, any, tracks, s);
    SameMoneySameInvoices(before.svc.store, s.store, s.invoiceToAccount);
    SameMoneySameInvoices(before.svc.store, before.svc.store, s.invoiceToAccount);
    StartEnds(before, any, s.invoiceToAccount, tracks, s, fails);
    AgreesStill(s, s');
  }

  /** A start that was stopped by a payment it could not take up. */
  lemma StartStops(before: World, any: map<Hash, AccountID>, tracks: seq<Event>, s: Service)
    requires MapsAllInvoices(before.svc.store, any)
    requires Stopped(LifeNext(before, Restart(any, false)), tracks, s)
    ensures Started(before, [Life(Restart(any, false))] + tracks, s.(enabled := false))
  {
    StartKeeps(before, any, tracks, s);
    RestartThen(before, any, tracks);
    AgreesStill(s, s.(enabled := false));
  }

  /** A start whose first read fails. */
  lemma StartFails(before: World, m: map<Hash, AccountID>, s: Service)
    requires MapsAllInvoices(before.svc.store, m)
    requires s == Service(before.svc.store, false, Indexes(0, 0), map[], map[], map[])
    ensures Started(before, [Life(Restart(m, true))], s)
  {
    var es := [Life(Restart(m, true))];
    assert es[1..] == [];
  }
}
