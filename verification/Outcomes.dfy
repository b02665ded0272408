/** What the calls of the service mean for a payment, an invoice and the money of an
    account, each stated without the call itself, and the whole way of a payment and of
    an invoice through the protocol. */
module Outcomes {
  import opened AccountTypes
  import opened AccountStore
  import opened PaymentTotals
  import opened ServiceSpec
  import opened Protocol
  import opened Finality
  import opened Ledger

  // ---- Payments ----

  /** One entry of one account was written, and its balance set; nothing else in any
      account changed. */
  ghost predicate Wrote(s: Service, s': Service, id: AccountID, h: Hash, e: PaymentEntry, balance: Int64) {
    && id in s.store.accounts && id in s'.store.accounts
    && s'.store.accounts[id] == s.store.accounts[id].(payments := s.store.accounts[id].payments[h := e], balance := balance)
    && s'.store.accounts.Keys == s.store.accounts.Keys
    && forall i :: i in s.store.accounts && i != id ==> s'.store.accounts[i] == s.store.accounts[i]
  }

  /** What is in flight after one entry was written. */
  lemma WroteMoves(s: Service, s': Service, id: AccountID, h: Hash, e: PaymentEntry, balance: Int64)
    requires Wrote(s, s', id, h, e, balance)
    ensures InFlight(s'.store.accounts[id]) ==
            InFlight(s.store.accounts[id]) - WeightAt(s.store.accounts[id].payments, InFlightWeight, h) + InFlightWeight(e)
  {
    TotalUpdate(s.store.accounts[id].payments, InFlightWeight, h, e);
  }

  /** Ending a tracked payment: it is tracked no longer and withholds nothing any more,
      all other payments are tracked as before. */
  ghost predicate Ended(s: Service, s': Service, h: Hash)
    requires h in s.pending
  {
    && s'.enabled == s.enabled && s'.requests == s.requests && s'.invoiceToAccount == s.invoiceToAccount
    && s'.pending == s.pending - {h}
    && var id := s.pending[h].account;
       && Known(s, id, h) && Known(s', id, h)
       && InFlight(s'.store.accounts[id]) == InFlight(s.store.accounts[id]) - s.store.accounts[id].payments[h].fullAmount
  }

  /** A failed update releases the payment: its amount can be spent again and the balance
      stays. If the write fails the service stops with the payment still tracked. */
  lemma FailedUpdateReleases(s: Service, h: Hash, value: Msat, fee: Msat, debitFails: bool, removeFails: bool)
    requires PendingSound(s) && s.enabled && h in s.pending
    ensures var id := s.pending[h].account;
            var a := s.store.accounts[id];
            var r := ServiceSpec.PaymentUpdate(s, h, FAILED, value, fee, debitFails, removeFails);
            if removeFails then r.error.Some? && r.svc == s.(enabled := false)
            else
              && r.error.None? && Ended(s, r.svc, h)
              && Wrote(s, r.svc, id, h, PaymentEntry(FAILED, a.payments[h].fullAmount), a.balance)
              && Slack(r.svc.store.accounts[id]) == Slack(a) + a.payments[h].fullAmount
  {
    assert AgreesOn(s, h);
    if !removeFails {
      var id := s.pending[h].account;
      var a := s.store.accounts[id];
      RemovePaymentResult(s, h, FAILED);
      var s' := ServiceSpec.PaymentUpdate(s, h, FAILED, value, fee, debitFails, false).svc;
      WroteMoves(s, s', id, h, PaymentEntry(FAILED, a.payments[h].fullAmount), a.balance);
    }
  }

  /** A success debits value plus fee once, in the place of the amount withheld. */
  lemma SucceededUpdateSettles(s: Service, h: Hash, value: Msat, fee: Msat)
    requires PendingSound(s) && s.enabled && h in s.pending
    ensures var id := s.pending[h].account;
            var a := s.store.accounts[id];
            var full := ToUint64(value + fee);
            var r := ServiceSpec.PaymentUpdate(s, h, SUCCEEDED, value, fee, false, false);
            && r.error.None? && Ended(s, r.svc, h)
            && Wrote(s, r.svc, id, h, PaymentEntry(SUCCEEDED, full), ToInt64(a.balance - full))
  {
    assert AgreesOn(s, h);
    var id := s.pending[h].account;
    var a := s.store.accounts[id];
    var full := ToUint64(value + fee);
    SettleResult(s, h, value, fee, false);
    SettleEffect(s, h, value, fee, false);
    var s' := ServiceSpec.PaymentUpdate(s, h, SUCCEEDED, value, fee, false, false).svc;
    WroteMoves(s, s', id, h, PaymentEntry(SUCCEEDED, full), ToInt64(a.balance - full));
  }

  /** An update of a payment in flight is no step at all; a terminal one stops the service
      exactly if the payment is not tracked or a write fails. */
  lemma UpdateDisablesIff(s: Service, h: Hash, status: Status, value: Msat, fee: Msat, debitFails: bool, removeFails: bool)
    requires PendingSound(s) && s.enabled
    ensures var r := ServiceSpec.PaymentUpdate(s, h, status, value, fee, debitFails, removeFails);
            && (InflightState(status) ==> r == ServiceSpec.Done(s))
            && (r.svc.enabled <==>
                InflightState(status) || (h in s.pending && !removeFails && (status == SUCCEEDED ==> !debitFails)))
            && (r.error.Some? <==> !r.svc.enabled)
  {
    if h in s.pending && !InflightState(status) {
      assert AgreesOn(s, h);
      if status == FAILED {
        FailedUpdateReleases(s, h, value, fee, debitFails, removeFails);
      } else if !debitFails {
        SettleEffect(s, h, value, fee, false);
        SucceededUpdateSettles(s, h, value, fee);
      }
    }
  }

  /** A payment can be reserved exactly once, or again after it FAILED; from then on its
      amount is withheld and no longer what an earlier attempt asked for. */
  lemma ReservedIff(s: Service, id: AccountID, h: Hash, amount: Msat, fails: bool)
    ensures var r := AssociatePayment(s, id, h, amount, fails);
            && (r.error.None? <==> id in s.store.accounts && !fails && (Known(s, id, h) ==> StatusOf(s, id, h) == FAILED))
            && (r.error.Some? ==> r.svc == s)
            && (r.error.None? ==>
                  var a := s.store.accounts[id];
                  && Wrote(s, r.svc, id, h, PaymentEntry(UNKNOWN, amount), a.balance)
                  && r.svc == s.(store := s.store.(accounts := r.svc.store.accounts))
                  && Slack(r.svc.store.accounts[id]) == Slack(a) - amount)
  {
    var r := AssociatePayment(s, id, h, amount, fails);
    if r.error.None? {
      WroteMoves(s, r.svc, id, h, PaymentEntry(UNKNOWN, amount), s.store.accounts[id].balance);
    }
  }

  /** A payment that errored is forgotten, unless it is tracked: the amount it withheld can
      be spent again, and the balance stays. */
  lemma ErroredForgets(s: Service, id: AccountID, h: Hash, fails: bool)
    ensures var r := PaymentErrored(s, id, h, fails);
            && (r.error.None? <==> h !in s.pending && !fails && Known(s, id, h))
            && (r.error.Some? ==> r.svc == s)
            && (r.error.None? ==>
                  var a := s.store.accounts[id];
                  && id in r.svc.store.accounts && !Known(r.svc, id, h)
                  && r.svc == s.(store := s.store.(accounts := s.store.accounts[id := r.svc.store.accounts[id]]))
                  && var a' := r.svc.store.accounts[id];
                     && a' == a.(payments := a'.payments) && a'.payments.Keys == a.payments.Keys - {h}
                     && (forall k :: k in a'.payments ==> a'.payments[k] == a.payments[k])
                     && Slack(a') == Slack(a) + WeightAt(a.payments, InFlightWeight, h))
  {
    if id in s.store.accounts {
      TotalRemove(s.store.accounts[id].payments, InFlightWeight, h);
    }
  }

  ghost predicate NoFault(f: TrackFaults) {
    !f.storeFails && !f.rpcFails
  }

  /** What is tracked for an account after a call: what was, and a new payment exactly if
      the service is enabled, the account exists, the payment is not settled and nothing
      fails. The service stops exactly if the entry cannot be stored and is not known. */
  lemma TrackedIff(s: Service, id: AccountID, h: Hash, amount: Msat, f: TrackFaults)
    ensures var r := TrackPayment(s, id, h, amount, f);
            && (TrackedFor(r.svc, id, h) <==>
                TrackedFor(s, id, h) ||
                (h !in s.pending && s.enabled && id in s.store.accounts && !IsSettled(s, id, h) && NoFault(f)))
            && s.pending.Keys <= r.svc.pending.Keys <= s.pending.Keys + {h}
            && (forall k :: k in s.pending ==> r.svc.pending[k] == s.pending[k])
            && (r.svc.enabled <==> s.enabled && (h in s.pending || f.known || (!f.storeFails && id in s.store.accounts)))
            && r.svc.requests == s.requests
  {
  }

  /** A payment that is tracked from now on is in flight with the amount given, or with the
      one on record when none is given. */
  lemma TrackedWithholds(s: Service, id: AccountID, h: Hash, amount: Msat, f: TrackFaults)
    requires h !in s.pending && s.enabled && id in s.store.accounts && !IsSettled(s, id, h) && NoFault(f)
    ensures var r := TrackPayment(s, id, h, amount, f);
            var a := s.store.accounts[id];
            var full := if amount == 0 && h in a.payments then a.payments[h].fullAmount else amount;
            && r.error.None? && r.svc.enabled && TrackedFor(r.svc, id, h)
            && Wrote(s, r.svc, id, h, PaymentEntry(UNKNOWN, full), a.balance)
            && InFlight(r.svc.store.accounts[id]) == InFlight(a) - WeightAt(a.payments, InFlightWeight, h) + full
  {
    var a := s.store.accounts[id];
    var full := if amount == 0 && h in a.payments then a.payments[h].fullAmount else amount;
    WroteMoves(s, TrackPayment(s, id, h, amount, f).svc, id, h, PaymentEntry(UNKNOWN, full), a.balance);
  }

  /** Values are registered once per request and found until they are deleted. */
  lemma RegisteredUntilDeleted(s: Service, req: Uint64, v: RequestValues)
    ensures var r := RegisterValues(s, req, v);
            && (r.error.None? <==> req !in s.requests)
            && (r.error.None? ==> req in r.svc.requests && r.svc.requests[req] == v && DeleteValues(r.svc, req) == s)
            && (r.error.Some? ==> r.svc == s)
            && req !in DeleteValues(r.svc, req).requests
  {
    if req !in s.requests {
      var m := s.requests[req := v];
      assert m - {req} == s.requests;
    }
  }

  // ---- The whole way of a payment ----

  /** A send request that passes the check: its payment is new or has failed, no other
      account pays it, and the request id is free. */
  ghost predicate CanSend(w: World, req: Uint64, id: AccountID, h: Hash, amount: Msat, now: Int64) {
    && IsIdle(w) && w.svc.enabled && PendingSound(w.svc)
    && id in Accounts(w) && BalanceVerdict(w.svc.store, id, amount, now).None?
    && h !in w.svc.pending && (Known(w.svc, id, h) ==> StatusOf(w.svc, id, h) == FAILED)
    && req !in w.svc.requests && (req in w.owners ==> w.owners[req] == id)
  }

  /** The three steps of the request handler. */
  ghost function Request(req: Uint64, id: AccountID, h: Hash, amount: Msat, now: Int64): seq<Event> {
    [Message(SendRequest(req, id, h, amount, now)), Message(SendAssociate(false)), Message(SendRegister)]
  }

  /** A payment is reserved and waits for its response. */
  ghost predicate Reserved(w: World, w': World, req: Uint64, id: AccountID, h: Hash, amount: Msat) {
    && IsIdle(w') && w'.svc.enabled && PendingSound(w'.svc) && id in Accounts(w)
    && req in w'.owners && w'.owners[req] == id
    && h !in w.svc.pending && req !in w.svc.requests
    && w'.svc == w.svc.(store := w.svc.store.(accounts := Accounts(w')), requests := w.svc.requests[req := RequestValues(h, amount)])
    && Wrote(w.svc, w'.svc, id, h, PaymentEntry(UNKNOWN, amount), Accounts(w)[id].balance)
  }

  lemma OneStep(w: World, e: Event)
    requires Enabled(w, e)
    ensures IsRun(w, [e]) && After(w, [e]) == Next(w, e)
  {
    assert [e][1..] == [];
  }

  lemma StepThen(w: World, e: Event, es: seq<Event>)
    requires Enabled(w, e) && IsRun(Next(w, e), es)
    ensures IsRun(w, [e] + es) && After(w, [e] + es) == After(Next(w, e), es)
  {
    assert ([e] + es)[1..] == es;
  }

  lemma {:induction false} RunThen(w: World, es: seq<Event>, more: seq<Event>)
    requires IsRun(w, es) && IsRun(After(w, es), more)
    ensures IsRun(w, es + more) && After(w, es + more) == After(After(w, es), more)
    decreases |es|
  {
    if es == [] {
      assert es + more == more;
    } else {
      assert (es + more)[1..] == es[1..] + more;
      RunThen(Next(w, es[0]), es[1..], more);
    }
  }

  /** Writing an entry of a payment that is not tracked disturbs none that is. */
  lemma WroteKeepsSound(s: Service, s': Service, id: AccountID, h: Hash, e: PaymentEntry, balance: Int64)
    requires PendingSound(s) && Wrote(s, s', id, h, e, balance) && h !in s.pending
    requires s'.pending == s.pending && s'.enabled == s.enabled
    ensures PendingSound(s')
  {
    forall k | k in s'.pending
      ensures OnRecord(s', s'.pending[k].account, k) && (s.enabled ==> IsInFlight(s', s'.pending[k].account, k))
    {
      assert OnRecord(s, s.pending[k].account, k);
      assert s.enabled ==> AgreesOn(s, k);
    }
  }

  lemma RequestReserves(w: World, req: Uint64, id: AccountID, h: Hash, amount: Msat, now: Int64)
    requires CanSend(w, req, id, h, amount, now)
    ensures var es := Request(req, id, h, amount, now);
            IsRun(w, es) && Reserved(w, After(w, es), req, id, h, amount)
  {
    var check, reserve, register := Message(SendRequest(req, id, h, amount, now)), Message(SendAssociate(false)), Message(SendRegister);
    var w1 := Next(w, check);
    ReservedIff(w.svc, id, h, amount, false);
    var w2 := Next(w1, reserve);
    assert w2.svc == AssociatePayment(w.svc, id, h, amount, false).svc;
    RegisteredUntilDeleted(w2.svc, req, RequestValues(h, amount));
    var w3 := Next(w2, register);
    OneStep(w2, register);
    StepThen(w1, reserve, [register]);
    StepThen(w, check, [reserve, register]);
    assert Request(req, id, h, amount, now) == [check] + [reserve, register];
    WroteKeepsSound(w.svc, w3.svc, id, h, PaymentEntry(UNKNOWN, amount), Accounts(w)[id].balance);
  }

  /** The two steps of the response handler for a payment that did not fail. */
  ghost function Response(req: Uint64, amount: Msat, f: TrackFaults): seq<Event> {
    [Message(SendResponse(req, amount, f)), Message(HandlerDeletes)]
  }

  /** A payment is tracked, withholding an amount, and the request is done with. */
  ghost predicate Underway(w: World, w': World, req: Uint64, id: AccountID, h: Hash, withheld: Msat) {
    && IsIdle(w') && w'.svc.enabled && PendingSound(w'.svc) && id in Accounts(w)
    && req !in w.svc.requests && w'.svc.requests == w.svc.requests
    && h !in w.svc.pending && TrackedFor(w'.svc, id, h) && w'.svc.pending - {h} == w.svc.pending
    && Wrote(w.svc, w'.svc, id, h, PaymentEntry(UNKNOWN, withheld), Accounts(w)[id].balance)
  }

  lemma TrackingKeepsSound(s: Service, id: AccountID, h: Hash, amount: Msat, f: TrackFaults)
    requires PendingSound(s) && h !in s.pending && s.enabled && IsInFlight(s, id, h) && NoFault(f)
    ensures PendingSound(TrackPayment(s, id, h, amount, f).svc)
  {
    var s' := TrackPayment(s, id, h, amount, f).svc;
    TrackedWithholds(s, id, h, amount, f);
    forall k | k in s'.pending ensures IsInFlight(s', s'.pending[k].account, k) {
      if k != h {
        assert AgreesOn(s, k);
      }
    }
  }

  lemma TwoSteps(w: World, e: Event, e': Event)
    requires Enabled(w, e) && Enabled(Next(w, e), e')
    ensures IsRun(w, [e, e']) && After(w, [e, e']) == Next(Next(w, e), e')
  {
    OneStep(Next(w, e), e');
    StepThen(w, e, [e']);
    assert [e, e'] == [e] + [e'];
  }

  lemma ResponseTracks(w: World, w1: World, req: Uint64, id: AccountID, h: Hash, amount: Msat, paying: Msat, f: TrackFaults)
    requires Reserved(w, w1, req, id, h, amount) && NoFault(f)
    ensures var es := Response(req, paying, f);
            IsRun(w1, es) && Underway(w, After(w1, es), req, id, h, if paying == 0 then amount else paying)
  {
    var respond := Message(SendResponse(req, paying, f));
    TrackedFrom(w, w1, req, id, h, amount, paying, f);
    TwoSteps(w1, respond, Message(HandlerDeletes));
  }

  lemma TrackedFrom(w: World, w1: World, req: Uint64, id: AccountID, h: Hash, amount: Msat, paying: Msat, f: TrackFaults)
    requires Reserved(w, w1, req, id, h, amount) && NoFault(f)
    ensures TrackPayment(w1.svc, id, h, paying, f).error.None?
    ensures var s3 := DeleteValues(TrackPayment(w1.svc, id, h, paying, f).svc, req);
            Underway(w, w1.(svc := s3), req, id, h, if paying == 0 then amount else paying)
  {
    TrackedWithholds(w1.svc, id, h, paying, f);
    TrackingKeepsSound(w1.svc, id, h, paying, f);
    TrackedIff(w1.svc, id, h, paying, f);
    UnderwayFrom(w, w1, TrackPayment(w1.svc, id, h, paying, f).svc, req, id, h, amount, if paying == 0 then amount else paying);
  }

  lemma UnderwayFrom(w: World, w1: World, s2: Service, req: Uint64, id: AccountID, h: Hash, amount: Msat, withheld: Msat)
    requires Reserved(w, w1, req, id, h, amount) && s2.enabled && PendingSound(s2) && s2.requests == w1.svc.requests
    requires TrackedFor(s2, id, h) && s2.pending.Keys == w1.svc.pending.Keys + {h}
    requires forall k :: k in w1.svc.pending ==> s2.pending[k] == w1.svc.pending[k]
    requires Wrote(w1.svc, s2, id, h, PaymentEntry(UNKNOWN, withheld), Accounts(w)[id].balance)
    ensures Underway(w, w1.(svc := DeleteValues(s2, req)), req, id, h, withheld)
  {
    assert s2.requests - {req} == w.svc.requests;
    assert s2.pending - {h} == w.svc.pending;
    Rewritten(w.svc, w1.svc, s2, id, h, PaymentEntry(UNKNOWN, amount), PaymentEntry(UNKNOWN, withheld),
              Accounts(w)[id].balance, Accounts(w)[id].balance);
    assert PendingSound(DeleteValues(s2, req)) by {
      SameTracking(s2, DeleteValues(s2, req));
    }
  }

  lemma SameTracking(s: Service, s': Service)
    requires PendingSound(s) && s' == s.(requests := s'.requests)
    ensures PendingSound(s')
  {
    forall k | k in s'.pending
      ensures OnRecord(s', s'.pending[k].account, k) && (s.enabled ==> IsInFlight(s', s'.pending[k].account, k))
    {
      assert OnRecord(s, s.pending[k].account, k);
      assert s.enabled ==> AgreesOn(s, k);
    }
  }

  lemma Rewritten(s: Service, s1: Service, s2: Service, id: AccountID, h: Hash, e: PaymentEntry, e': PaymentEntry,
                  balance: Int64, balance': Int64)
    requires Wrote(s, s1, id, h, e, balance) && Wrote(s1, s2, id, h, e', balance')
    ensures Wrote(s, s2, id, h, e', balance')
  {
  }

  /** From request to success: whatever amount was asked for and tracked, in the end the
      account has paid value plus fee, once, and nothing of the payment is withheld,
      tracked or registered any more. */
  lemma SentAndSettled(w: World, req: Uint64, id: AccountID, h: Hash, amount: Msat, now: Int64, paying: Msat, f: TrackFaults,
                       value: Msat, fee: Msat)
    requires CanSend(w, req, id, h, amount, now) && NoFault(f)
    ensures var es := Request(req, id, h, amount, now) + Response(req, paying, f) +
                      [Stream(PaymentUpdate(h, SUCCEEDED, value, fee, false, false))];
            IsRun(w, es) && Paid(w, After(w, es), id, h, ToUint64(value + fee))
  {
    var e := Stream(PaymentUpdate(h, SUCCEEDED, value, fee, false, false));
    var w2 := SentAndTracked(w, req, id, h, amount, now, paying, f);
    SettledFrom(w, w2, req, id, h, if paying == 0 then amount else paying, value, fee, ToUint64(value + fee));
    OneStep(w2, e);
    RunThen(w, Request(req, id, h, amount, now) + Response(req, paying, f), [e]);
  }

  /** The amount was debited from the account and stands as SUCCEEDED. */
  ghost predicate Paid(w: World, w': World, id: AccountID, h: Hash, full: Msat) {
    id in Accounts(w) && LeftBehind(w, w', id, h, PaymentEntry(SUCCEEDED, full), ToInt64(Accounts(w)[id].balance - full))
  }

  lemma SettledFrom(w: World, w2: World, req: Uint64, id: AccountID, h: Hash, withheld: Msat, value: Msat, fee: Msat, full: Msat)
    requires Underway(w, w2, req, id, h, withheld) && full == ToUint64(value + fee)
    requires Known(w.svc, id, h) ==> StatusOf(w.svc, id, h) == FAILED
    ensures var w3 := Next(w2, Stream(PaymentUpdate(h, SUCCEEDED, value, fee, false, false)));
            Paid(w, w3, id, h, full)
  {
    SucceededUpdateSettles(w2.svc, h, value, fee);
    EndsWell(w, w2, Next(w2, Stream(PaymentUpdate(h, SUCCEEDED, value, fee, false, false))), req, id, h, withheld,
             PaymentEntry(SUCCEEDED, full), ToInt64(Accounts(w)[id].balance - full));
  }

  /** From request to failure: the account can spend what it could before. */
  lemma SentAndFailed(w: World, req: Uint64, id: AccountID, h: Hash, amount: Msat, now: Int64, paying: Msat, f: TrackFaults,
                      value: Msat, fee: Msat, debitFails: bool)
    requires CanSend(w, req, id, h, amount, now) && NoFault(f)
    ensures var es := Request(req, id, h, amount, now) + Response(req, paying, f) +
                      [Stream(PaymentUpdate(h, FAILED, value, fee, debitFails, false))];
            && IsRun(w, es)
            && LeftBehind(w, After(w, es), id, h, PaymentEntry(FAILED, if paying == 0 then amount else paying), Accounts(w)[id].balance)
            && Slack(Accounts(After(w, es))[id]) == Slack(Accounts(w)[id])
  {
    var e := Stream(PaymentUpdate(h, FAILED, value, fee, debitFails, false));
    var w2 := SentAndTracked(w, req, id, h, amount, now, paying, f);
    FailedUpdateReleases(w2.svc, h, value, fee, debitFails, false);
    EndsWell(w, w2, Next(w2, e), req, id, h, if paying == 0 then amount else paying,
             PaymentEntry(FAILED, if paying == 0 then amount else paying), Accounts(w)[id].balance);
    OneStep(w2, e);
    RunThen(w, Request(req, id, h, amount, now) + Response(req, paying, f), [e]);
  }

  /** One entry and the balance of its account are all that a payment leaves behind. */
  ghost predicate LeftBehind(w: World, w': World, id: AccountID, h: Hash, e: PaymentEntry, balance: Int64) {
    && w'.svc.enabled && IsIdle(w')
    && w'.svc.pending == w.svc.pending && w'.svc.requests == w.svc.requests
    && Wrote(w.svc, w'.svc, id, h, e, balance)
    && InFlight(Accounts(w')[id]) == InFlight(Accounts(w)[id])
  }

  lemma SentAndTracked(w: World, req: Uint64, id: AccountID, h: Hash, amount: Msat, now: Int64, paying: Msat, f: TrackFaults)
    returns (w2: World)
    requires CanSend(w, req, id, h, amount, now) && NoFault(f)
    ensures var es := Request(req, id, h, amount, now) + Response(req, paying, f);
            IsRun(w, es) && w2 == After(w, es) && Underway(w, w2, req, id, h, if paying == 0 then amount else paying)
  {
    RequestReserves(w, req, id, h, amount, now);
    var w1 := After(w, Request(req, id, h, amount, now));
    ResponseTracks(w, w1, req, id, h, amount, paying, f);
    RunThen(w, Request(req, id, h, amount, now), Response(req, paying, f));
    w2 := After(w1, Response(req, paying, f));
  }

  lemma EndsWell(w: World, w2: World, w3: World, req: Uint64, id: AccountID, h: Hash, withheld: Msat, e: PaymentEntry, balance: Int64)
    requires Known(w.svc, id, h) ==> StatusOf(w.svc, id, h) == FAILED
    requires Underway(w, w2, req, id, h, withheld) && !InflightState(e.status)
    requires Ended(w2.svc, w3.svc, h) && Wrote(w2.svc, w3.svc, id, h, e, balance) && w3.phase == w2.phase
    ensures LeftBehind(w, w3, id, h, e, balance)
  {
    Rewritten(w.svc, w2.svc, w3.svc, id, h, PaymentEntry(UNKNOWN, withheld), e, Accounts(w)[id].balance, balance);
    WroteMoves(w.svc, w3.svc, id, h, e, balance);
  }

  /** From request to an RPC error: the account is as it was, but for an earlier failed
      attempt at the same payment, which is forgotten as well. */
  lemma SentAndErrored(w: World, req: Uint64, id: AccountID, h: Hash, amount: Msat, now: Int64)
    requires CanSend(w, req, id, h, amount, now)
    ensures var es := Request(req, id, h, amount, now) + [Message(SendError(req, false)), Message(HandlerDeletes)];
            && IsRun(w, es)
            && var w', a := After(w, es), Accounts(w)[id];
               && IsIdle(w') && w'.svc == w.svc.(store := w.svc.store.(accounts := Accounts(w)[id := a.(payments := a.payments - {h})]))
               && (!Known(w.svc, id, h) ==> w'.svc == w.svc)
  {
    RequestReserves(w, req, id, h, amount, now);
    var w1 := After(w, Request(req, id, h, amount, now));
    ForgottenFrom(w, w1, req, id, h, amount);
    TwoSteps(w1, Message(SendError(req, false)), Message(HandlerDeletes));
    RunThen(w, Request(req, id, h, amount, now), [Message(SendError(req, false)), Message(HandlerDeletes)]);
  }

  lemma ForgottenFrom(w: World, w1: World, req: Uint64, id: AccountID, h: Hash, amount: Msat)
    requires Reserved(w, w1, req, id, h, amount)
    ensures var r := PaymentErrored(w1.svc, id, h, false);
            && r.error.None?
            && var a := Accounts(w)[id];
               && DeleteValues(r.svc, req) == w.svc.(store := w.svc.store.(accounts := Accounts(w)[id := a.(payments := a.payments - {h})]))
               && (!Known(w.svc, id, h) ==> DeleteValues(r.svc, req) == w.svc)
  {
    ErroredForgets(w1.svc, id, h, false);
    var a, s2 := Accounts(w)[id], PaymentErrored(w1.svc, id, h, false).svc;
    assert s2.requests - {req} == w.svc.requests;
    assert s2.store.accounts[id].payments == a.payments - {h};
    assert s2.store.accounts == Accounts(w)[id := a.(payments := a.payments - {h})];
    if !Known(w.svc, id, h) {
      assert a.payments - {h} == a.payments;
      assert Accounts(w)[id := a] == Accounts(w);
    }
  }

  // ---- Tracking lasts until the payment ends ----

  /** The events that may end the tracking of a payment: a terminal update, lnd saying it
      was never initiated, a failed response, the removal of its account and a restart. */
  ghost predicate Ends(w: World, e: Event, id: AccountID, h: Hash) {
    match e
    case Stream(PaymentUpdate(k, status, _, _, _, _)) => k == h && !InflightState(status)
    case Stream(NotInitiated(k, _)) => k == h
    case Message(HandlerRemoves(_)) => w.phase.Serving? && w.phase.handler == Removing(h)
    case Admin(RemoveAccount(i, _, _)) => i == id
    case Life(Restart(_, _)) => true
    case _ => false
  }

  ghost predicate NeverEnds(w: World, es: seq<Event>, id: AccountID, h: Hash)
    requires IsRun(w, es)
    decreases |es|
  {
    es == [] || (!Ends(w, es[0], id, h) && NeverEnds(Next(w, es[0]), es[1..], id, h))
  }

  /** A payment is tracked, with its entry in its account. */
  ghost predicate TrackedWith(s: Service, id: AccountID, h: Hash, e: PaymentEntry) {
    TrackedFor(s, id, h) && Known(s, id, h) && s.store.accounts[id].payments[h] == e
  }

  lemma RemovalOfOther(s: Service, id: AccountID, h: Hash, e: PaymentEntry, k: Hash, status: Status, fails: bool)
    requires TrackedWith(s, id, h, e) && k != h
    ensures TrackedWith(RemovePayment(s, k, status, fails).svc, id, h, e)
  {
  }

  lemma UpdateOfOther(s: Service, id: AccountID, h: Hash, e: PaymentEntry, k: Hash, status: Status, value: Msat, fee: Msat,
                      debitFails: bool, removeFails: bool)
    requires TrackedWith(s, id, h, e) && (k != h || InflightState(status))
    ensures TrackedWith(ServiceSpec.PaymentUpdate(s, k, status, value, fee, debitFails, removeFails).svc, id, h, e)
  {
    if !InflightState(status) && k in s.pending {
      RemovalOfOther(s, id, h, e, k, FAILED, removeFails);
      var r := UpsertPayment(s.store, s.pending[k].account, k, ToUint64(value + fee), SUCCEEDED, NO_OPTIONS.(debitAccount := true));
      if r.Ok? {
        RemovalOfOther(s.(store := r.value), id, h, e, k, SUCCEEDED, removeFails);
      }
    }
  }

  lemma StreamKeepsTracked(w: World, m: StreamEvent, id: AccountID, h: Hash, e: PaymentEntry)
    requires TrackedWith(w.svc, id, h, e) && !Ends(w, Stream(m), id, h)
    ensures TrackedWith(StreamNext(w.svc, m), id, h, e)
  {
    if m.PaymentUpdate? {
      UpdateOfOther(w.svc, id, h, e, m.hash, m.status, m.value, m.fee, m.debitFails, m.removeFails);
    } else if m.NotInitiated? {
      RemovalOfOther(w.svc, id, h, e, m.hash, FAILED, m.fails);
    } else if m.InvoiceUpdate? {
      InvoiceKeepsPayments(w.svc, m.inv, m.indexFails, m.creditFails);
    }
  }

  lemma InvoiceKeepsPayments(s: Service, inv: InvoiceEvent, indexFails: bool, creditFails: bool)
    ensures var s' := ServiceSpec.InvoiceUpdate(s, inv, indexFails, creditFails).svc;
            && s'.pending == s.pending && s'.store.accounts.Keys == s.store.accounts.Keys
            && forall i :: i in s.store.accounts ==> s'.store.accounts[i].payments == s.store.accounts[i].payments
  {
    InvoiceResult(s, inv, indexFails, creditFails);
  }

  lemma AdminKeepsTracked(w: World, a: AdminEvent, id: AccountID, h: Hash, e: PaymentEntry)
    requires AdminEnabled(w, a) && Accounts(w).Keys <= w.ids
    requires TrackedWith(w.svc, id, h, e) && !Ends(w, Admin(a), id, h)
    ensures TrackedWith(AdminNext(w.svc, a), id, h, e)
  {
  }

  lemma TrackKeepsTracked(s: Service, id: AccountID, h: Hash, e: PaymentEntry, i: AccountID, k: Hash, amount: Msat, f: TrackFaults)
    requires TrackedWith(s, id, h, e)
    ensures TrackedWith(TrackPayment(s, i, k, amount, f).svc, id, h, e)
  {
  }

  lemma ReserveKeepsTracked(s: Service, id: AccountID, h: Hash, e: PaymentEntry, i: AccountID, k: Hash, amount: Msat, fails: bool)
    requires TrackedWith(s, id, h, e) && e.status != FAILED
    ensures TrackedWith(AssociatePayment(s, i, k, amount, fails).svc, id, h, e)
  {
    ReservedIff(s, i, k, amount, fails);
  }

  lemma ErrorKeepsTracked(s: Service, id: AccountID, h: Hash, e: PaymentEntry, i: AccountID, k: Hash, fails: bool)
    requires TrackedWith(s, id, h, e)
    ensures TrackedWith(PaymentErrored(s, i, k, fails).svc, id, h, e)
  {
  }

  lemma MessageKeepsTracked(w: World, m: MessageEvent, id: AccountID, h: Hash, e: PaymentEntry)
    requires MessageEnabled(w, m) && TrackedWith(w.svc, id, h, e) && e.status != FAILED && !Ends(w, Message(m), id, h)
    ensures TrackedWith(MessageNext(w, m).svc, id, h, e)
  {
    if m.SendAssociate? {
      ReserveKeepsTracked(w.svc, id, h, e, w.phase.handler.id, w.phase.handler.hash, w.phase.handler.amount, m.fails);
    } else if m.SendResponse? {
      TrackKeepsTracked(w.svc, id, h, e, w.owners[m.req], w.svc.requests[m.req].hash, m.amount, m.faults);
    } else if m.SendError? {
      ErrorKeepsTracked(w.svc, id, h, e, w.owners[m.req], w.svc.requests[m.req].hash, m.fails);
    } else if m.HandlerRemoves? {
      RemovalOfOther(w.svc, id, h, e, w.phase.handler.hash, FAILED, m.fails);
    }
  }

  /** No other event touches a tracked payment: not a second send of its hash, not an RPC
      error, not another account that asks for the same payment. */
  lemma StepKeepsTracked(w: World, ev: Event, id: AccountID, h: Hash, e: PaymentEntry)
    requires Inv(w) && Enabled(w, ev) && TrackedWith(w.svc, id, h, e) && !Ends(w, ev, id, h)
    ensures TrackedWith(Next(w, ev).svc, id, h, e)
  {
    assert OnRecord(w.svc, w.svc.pending[h].account, h);
    match ev
    case Admin(a) => AdminKeepsTracked(w, a, id, h, e);
    case Stream(m) => StreamKeepsTracked(w, m, id, h, e);
    case Message(m) => MessageKeepsTracked(w, m, id, h, e);
    case Life(l) =>
      if l.StartTrack? {
        TrackKeepsTracked(w.svc, id, h, e, l.id, l.hash, w.phase.todo[(l.id, l.hash)], l.faults);
      }
  }

  lemma {:induction false} TrackingLasts(w: World, es: seq<Event>, id: AccountID, h: Hash, e: PaymentEntry)
    requires Inv(w) && IsRun(w, es) && TrackedWith(w.svc, id, h, e) && NeverEnds(w, es, id, h)
    ensures TrackedWith(After(w, es).svc, id, h, e)
    decreases |es|
  {
    if es != [] {
      StepKeepsInv(w, es[0]);
      StepKeepsTracked(w, es[0], id, h, e);
      TrackingLasts(Next(w, es[0]), es[1..], id, h, e);
    }
  }

  /** Whatever else happens while a payment is underway, its end reaches the account that
      pays it: a success debits value plus fee, a failure frees the amount withheld. */
  lemma EndReachesPayer(w: World, es: seq<Event>, id: AccountID, h: Hash, e: PaymentEntry, value: Msat, fee: Msat)
    requires Inv(w) && IsRun(w, es) && TrackedWith(w.svc, id, h, e) && NeverEnds(w, es, id, h)
    requires After(w, es).svc.enabled
    ensures var w1 := After(w, es);
            && id in Accounts(w1)
            && var a := Accounts(w1)[id];
               && Wrote(w1.svc, StreamNext(w1.svc, PaymentUpdate(h, SUCCEEDED, value, fee, false, false)), id, h,
                        PaymentEntry(SUCCEEDED, ToUint64(value + fee)), ToInt64(a.balance - ToUint64(value + fee)))
               && Wrote(w1.svc, StreamNext(w1.svc, PaymentUpdate(h, FAILED, value, fee, false, false)), id, h,
                        PaymentEntry(FAILED, e.fullAmount), a.balance)
  {
    RunKeepsInv(w, es);
    TrackingLasts(w, es, id, h, e);
    SucceededUpdateSettles(After(w, es).svc, h, value, fee);
    FailedUpdateReleases(After(w, es).svc, h, value, fee, false, false);
  }
}
