/** Amounts that stay reserved with nobody left to release them. A request reserves its
    amount before its payment is tracked; if its values are dropped before tracking
    begins, only a restart takes the payment up again. */
module Reservations {
  import opened AccountTypes
  import opened AccountStore
  import opened ServiceSpec
  import opened Protocol
  import opened Finality
  import opened Outcomes

  /** An entry in flight that is not tracked and that no request will respond for. */
  ghost predicate Stranded(w: World, id: AccountID, h: Hash, e: PaymentEntry) {
    && w.phase.Serving?
    && Lies(w.svc, id, h, e)
    && NoRequestFor(w, id, h)
    && !(w.phase.handler.Associated? && w.phase.handler.id == id && w.phase.handler.hash == h)
  }

  ghost predicate InFlightAs(s: Service, id: AccountID, h: Hash, e: PaymentEntry) {
    Known(s, id, h) && s.store.accounts[id].payments[h] == e && InflightState(e.status)
  }

  ghost predicate NoRequestFor(w: World, id: AccountID, h: Hash) {
    forall r :: r in w.svc.requests && r in w.owners && w.owners[r] == id ==> w.svc.requests[r].hash != h
  }

  /** The account records the payment in this way and does not track it. */
  ghost predicate Lies(s: Service, id: AccountID, h: Hash, e: PaymentEntry) {
    InFlightAs(s, id, h, e) && !TrackedFor(s, id, h)
  }

  lemma RemovalLeaves(s: Service, id: AccountID, h: Hash, e: PaymentEntry, k: Hash, status: Status, fails: bool)
    requires Lies(s, id, h, e)
    ensures Lies(RemovePayment(s, k, status, fails).svc, id, h, e)
  {
  }

  lemma DebitLeaves(s: Service, id: AccountID, h: Hash, e: PaymentEntry, k: Hash, full: Msat)
    requires Lies(s, id, h, e) && k in s.pending
    ensures var r := UpsertPayment(s.store, s.pending[k].account, k, full, SUCCEEDED, NO_OPTIONS.(debitAccount := true));
            r.Ok? ==> Lies(s.(store := r.value), id, h, e)
  {
  }

  lemma UpdateLeaves(s: Service, id: AccountID, h: Hash, e: PaymentEntry, k: Hash, status: Status, value: Msat, fee: Msat,
                     debitFails: bool, removeFails: bool)
    requires Lies(s, id, h, e)
    ensures Lies(ServiceSpec.PaymentUpdate(s, k, status, value, fee, debitFails, removeFails).svc, id, h, e)
  {
    if k in s.pending && !InflightState(status) {
      if status == FAILED {
        RemovalLeaves(s, id, h, e, k, FAILED, removeFails);
      } else {
        var full := ToUint64(value + fee);
        var r := UpsertPayment(s.store, s.pending[k].account, k, full, SUCCEEDED, NO_OPTIONS.(debitAccount := true));
        DebitLeaves(s, id, h, e, k, full);
        if r.Ok? {
          RemovalLeaves(s.(store := r.value), id, h, e, k, SUCCEEDED, removeFails);
        }
      }
    }
  }

  lemma StreamLeaves(s: Service, id: AccountID, h: Hash, e: PaymentEntry, m: StreamEvent)
    requires Lies(s, id, h, e)
    ensures Lies(StreamNext(s, m), id, h, e)
  {
    if m.PaymentUpdate? {
      UpdateLeaves(s, id, h, e, m.hash, m.status, m.value, m.fee, m.debitFails, m.removeFails);
    } else if m.NotInitiated? {
      RemovalLeaves(s, id, h, e, m.hash, FAILED, m.fails);
    } else if m.InvoiceUpdate? {
      InvoiceKeepsPayments(s, m.inv, m.indexFails, m.creditFails);
    }
  }

  lemma AdminLeaves(w: World, id: AccountID, h: Hash, e: PaymentEntry, a: AdminEvent)
    requires AdminEnabled(w, a) && Accounts(w).Keys <= w.ids
    requires Lies(w.svc, id, h, e)
    ensures id in AdminNext(w.svc, a).store.accounts ==> Lies(AdminNext(w.svc, a), id, h, e)
    ensures AdminNext(w.svc, a).requests == w.svc.requests
  {
  }

  lemma TrackLeaves(s: Service, id: AccountID, h: Hash, e: PaymentEntry, i: AccountID, k: Hash, amount: Msat, f: TrackFaults)
    requires Lies(s, id, h, e) && (i, k) != (id, h)
    ensures Lies(TrackPayment(s, i, k, amount, f).svc, id, h, e)
  {
  }

  lemma ErrorLeaves(s: Service, id: AccountID, h: Hash, e: PaymentEntry, i: AccountID, k: Hash, fails: bool)
    requires Lies(s, id, h, e) && (i, k) != (id, h)
    ensures Lies(PaymentErrored(s, i, k, fails).svc, id, h, e)
  {
  }

  lemma MessageLeaves(w: World, id: AccountID, h: Hash, e: PaymentEntry, m: MessageEvent)
    requires Inv(w) && MessageEnabled(w, m) && Stranded(w, id, h, e)
    ensures Lies(MessageNext(w, m).svc, id, h, e)
  {
    if m.SendAssociate? {
      var c := w.phase.handler;
      ReservedIff(w.svc, c.id, c.hash, c.amount, m.fails);
    } else if m.SendResponse? {
      TrackLeaves(w.svc, id, h, e, w.owners[m.req], w.svc.requests[m.req].hash, m.amount, m.faults);
    } else if m.SendError? {
      ErrorLeaves(w.svc, id, h, e, w.owners[m.req], w.svc.requests[m.req].hash, m.fails);
    } else if m.HandlerRemoves? {
      RemovalLeaves(w.svc, id, h, e, w.phase.handler.hash, FAILED, m.fails);
    }
  }

  /** No handler comes to wait for the payment: a second send of it is refused. */
  lemma MessageStrands(w: World, id: AccountID, h: Hash, e: PaymentEntry, m: MessageEvent)
    requires Inv(w) && MessageEnabled(w, m) && Stranded(w, id, h, e)
    ensures var w' := MessageNext(w, m);
            && w'.phase.Serving? && NoRequestFor(w', id, h)
            && !(w'.phase.handler.Associated? && w'.phase.handler.id == id && w'.phase.handler.hash == h)
  {
    if m.SendAssociate? {
      var c := w.phase.handler;
      ReservedIff(w.svc, c.id, c.hash, c.amount, m.fails);
    } else if m.SendResponse? {
      TrackedIff(w.svc, w.owners[m.req], w.svc.requests[m.req].hash, m.amount, m.faults);
    } else if m.SendError? {
      ErroredForgets(w.svc, w.owners[m.req], w.svc.requests[m.req].hash, m.fails);
    } else if m.HandlerRemoves? {
      RemovalKeepsRequests(w.svc, w.phase.handler.hash, FAILED, m.fails);
    }
  }

  lemma RemovalKeepsRequests(s: Service, h: Hash, status: Status, fails: bool)
    ensures RemovePayment(s, h, status, fails).svc.requests == s.requests
  {
  }

  lemma UpdateKeepsRequests(s: Service, h: Hash, status: Status, value: Msat, fee: Msat, debitFails: bool, removeFails: bool)
    ensures ServiceSpec.PaymentUpdate(s, h, status, value, fee, debitFails, removeFails).svc.requests == s.requests
  {
    RemovalKeepsRequests(s, h, FAILED, removeFails);
    if h in s.pending {
      var r := UpsertPayment(s.store, s.pending[h].account, h, ToUint64(value + fee), SUCCEEDED, NO_OPTIONS.(debitAccount := true));
      if r.Ok? {
        RemovalKeepsRequests(s.(store := r.value), h, SUCCEEDED, removeFails);
      }
    }
  }

  lemma StreamKeepsRequests(s: Service, m: StreamEvent)
    ensures StreamNext(s, m).requests == s.requests
  {
    if m.PaymentUpdate? {
      UpdateKeepsRequests(s, m.hash, m.status, m.value, m.fee, m.debitFails, m.removeFails);
    } else if m.NotInitiated? {
      RemovalKeepsRequests(s, m.hash, FAILED, m.fails);
    }
  }

  /** Nothing but a restart moves a stranded payment, while its account exists. */
  lemma StepKeepsStranded(w: World, ev: Event, id: AccountID, h: Hash, e: PaymentEntry)
    requires Inv(w) && Enabled(w, ev) && Stranded(w, id, h, e) && !(ev.Life? && ev.life.Restart?)
    ensures id in Accounts(Next(w, ev)) ==> Stranded(Next(w, ev), id, h, e)
  {
    match ev
    case Admin(a) => AdminLeaves(w, id, h, e, a);
    case Stream(m) =>
      StreamLeaves(w.svc, id, h, e, m);
      StreamKeepsRequests(w.svc, m);
    case Message(m) =>
      MessageLeaves(w, id, h, e, m);
      MessageStrands(w, id, h, e, m);
    case Life(_) =>
  }

  lemma {:induction false} StrandedUntilRestart(w: World, es: seq<Event>, id: AccountID, h: Hash, e: PaymentEntry)
    requires Inv(w) && IsRun(w, es) && Stranded(w, id, h, e)
    requires forall ev :: ev in es ==> !(ev.Life? && ev.life.Restart?)
    ensures id in Accounts(After(w, es)) ==> Stranded(After(w, es), id, h, e)
    decreases |es|
  {
    if es != [] {
      StepKeepsStranded(w, es[0], id, h, e);
      StepKeepsInv(w, es[0]);
      if id in Accounts(Next(w, es[0])) {
        StrandedUntilRestart(Next(w, es[0]), es[1..], id, h, e);
      } else {
        IdsOnlyGrow(w, es[0]);
        RemovedForGood(Next(w, es[0]), es[1..], id);
      }
    }
  }

  /** In every reachable state a response that reports a failure ends nothing: a payment
      that is waited for is not tracked yet, so what it reserved stays withheld, and over
      every run that follows nothing but a restart frees it. */
  lemma FailedResponseStrands(w: World, req: Uint64, fails: bool, es: seq<Event>)
    requires Inv(w) && IsIdle(w) && req in w.svc.requests && w.owners[req] in Accounts(w)
    requires IsRun(w, [Message(SendFailedResponse(req)), Message(HandlerRemoves(fails))] + es)
    requires forall ev :: ev in es ==> !(ev.Life? && ev.life.Restart?)
    ensures var id, h := w.owners[req], w.svc.requests[req].hash;
            var w' := After(w, [Message(SendFailedResponse(req)), Message(HandlerRemoves(fails))] + es);
            && IsInFlight(w.svc, id, h)
            && (id in Accounts(w') ==> Stranded(w', id, h, Accounts(w)[id].payments[h]))
  {
    var id, h := w.owners[req], w.svc.requests[req].hash;
    var two := [Message(SendFailedResponse(req)), Message(HandlerRemoves(fails))];
    RunSplits(w, two, es);
    assert Waiting(w, req);
    var w1 := Next(w, two[0]);
    StepKeepsInv(w, two[0]);
    assert NoRequestFor(w1, id, h) by {
      assert forall r :: r in w1.svc.requests ==> r != req && Waiting(w, r);
    }
    assert Stranded(w1, id, h, Accounts(w)[id].payments[h]);
    assert (two + es)[1..] == [two[1]] + es;
    StrandedUntilRestart(w1, [two[1]] + es, id, h, Accounts(w)[id].payments[h]);
  }

  /** So does a request id that is used twice: the second payment is reserved and its
      values are refused. */
  lemma ReusedRequestStrands(w: World, es: seq<Event>)
    requires Inv(w) && w.phase.Serving? && w.phase.handler.Associated? && w.phase.handler.req in w.svc.requests
    requires w.phase.handler.id in Accounts(w)
    requires IsRun(w, [Message(SendRegister)] + es)
    requires forall ev :: ev in es ==> !(ev.Life? && ev.life.Restart?)
    ensures var id, h := w.phase.handler.id, w.phase.handler.hash;
            var w' := After(w, [Message(SendRegister)] + es);
            && IsInFlight(w.svc, id, h)
            && (id in Accounts(w') ==> Stranded(w', id, h, Accounts(w)[id].payments[h]))
  {
    var id, h := w.phase.handler.id, w.phase.handler.hash;
    var register := Message(SendRegister);
    assert ([register] + es)[1..] == es;
    StepKeepsInv(w, register);
    assert NoRequestFor(w, id, h) by {
      assert forall r :: r in w.svc.requests ==> Waiting(w, r);
    }
    StrandedUntilRestart(Next(w, register), es, id, h, Accounts(w)[id].payments[h]);
  }
}
