/** The joint invariant of store, caches, request values and handler, and what it
    gives: cache agreement and payment finality over every run. */
module Finality {
  import opened AccountTypes
  import opened AccountStore
  import opened ServiceSpec
  import opened Protocol

  ghost predicate Known(s: Service, id: AccountID, h: Hash) {
    id in s.store.accounts && h in s.store.accounts[id].payments
  }

  ghost function StatusOf(s: Service, id: AccountID, h: Hash): Status
    requires Known(s, id, h)
  {
    s.store.accounts[id].payments[h].status
  }

  ghost predicate IsInFlight(s: Service, id: AccountID, h: Hash) {
    Known(s, id, h) && InflightState(StatusOf(s, id, h))
  }

  ghost predicate IsSettled(s: Service, id: AccountID, h: Hash) {
    Known(s, id, h) && SuccessState(StatusOf(s, id, h))
  }

  /** Every tracked payment belongs to an existing account that records it as in flight. */
  ghost predicate PendingAgrees(s: Service) {
    forall h :: h in s.pending ==> IsInFlight(s, s.pending[h].account, h)
  }

  ghost predicate TrackedFor(s: Service, id: AccountID, h: Hash) {
    h in s.pending && s.pending[h].account == id
  }

  /** A hash that is in flight if it is tracked. */
  ghost predicate AgreesOn(s: Service, h: Hash) {
    h in s.pending ==> IsInFlight(s, s.pending[h].account, h)
  }

  /** A tracked payment is on record and not FAILED; it is in flight for as long as the
      service is enabled. */
  ghost predicate PendingSound(s: Service) {
    && (forall h :: h in s.pending ==> OnRecord(s, s.pending[h].account, h))
    && (s.enabled ==> PendingAgrees(s))
  }

  ghost predicate OnRecord(s: Service, id: AccountID, h: Hash) {
    Known(s, id, h) && StatusOf(s, id, h) != FAILED
  }

  /** A payment that was associated and is not tracked for its account yet. */
  ghost predicate Open(s: Service, id: AccountID, h: Hash) {
    id in s.store.accounts ==> IsInFlight(s, id, h) && !TrackedFor(s, id, h)
  }

  /** Registered values whose outcome no handler has recorded yet. */
  ghost predicate Waiting(w: World, req: Uint64) {
    req in w.svc.requests && w.phase != Serving(Finishing(req))
  }

  ghost predicate RequestsOpen(w: World) {
    && w.svc.requests.Keys <= w.owners.Keys
    && forall r :: Waiting(w, r) ==> Open(w.svc, w.owners[r], w.svc.requests[r].hash)
  }

  /** No two waiting requests of an existing account share a payment hash. */
  ghost predicate RequestsDistinct(w: World)
    requires w.svc.requests.Keys <= w.owners.Keys
  {
    forall r, q ::
      Waiting(w, r) && Waiting(w, q) && r != q && w.owners[r] == w.owners[q] && w.owners[r] in Accounts(w) ==>
        w.svc.requests[r].hash != w.svc.requests[q].hash
  }

  ghost predicate NoneWaitsFor(w: World, id: AccountID, h: Hash)
    requires w.svc.requests.Keys <= w.owners.Keys
  {
    forall r :: Waiting(w, r) && w.owners[r] == id ==> w.svc.requests[r].hash != h
  }

  ghost predicate HandlerConsistent(w: World)
    requires w.svc.requests.Keys <= w.owners.Keys
  {
    match w.phase
    case Starting(_) => w.svc.requests == map[]
    case Serving(Associated(req, id, h, _)) =>
      && req in w.owners && w.owners[req] == id
      && Open(w.svc, id, h)
      && (id in Accounts(w) ==> NoneWaitsFor(w, id, h))
    case Serving(Checked(req, id, _, _)) => req in w.owners && w.owners[req] == id
    case _ => true
  }

  ghost predicate IdsCover(w: World) {
    && Accounts(w).Keys <= w.ids
    && (forall r :: r in w.owners ==> w.owners[r] in w.ids)
    && (forall h :: h in w.svc.invoiceToAccount ==> w.svc.invoiceToAccount[h] in w.ids)
  }

  /** A mapped invoice of an account that still exists is one of its stored invoices. */
  ghost predicate InvoicesBacked(s: Service) {
    forall h :: h in s.invoiceToAccount && s.invoiceToAccount[h] in s.store.accounts ==>
      h in s.store.accounts[s.invoiceToAccount[h]].invoices
  }

  ghost predicate Inv(w: World) {
    && PendingSound(w.svc)
    && RequestsOpen(w)
    && RequestsDistinct(w)
    && HandlerConsistent(w)
    && IdsCover(w)
    && InvoicesBacked(w.svc)
  }

  /** The one store failure that the code cannot absorb: the payment h is debited, and
      the second write, which stops tracking it, fails. */
  ghost predicate LosesRemoval(e: Event, h: Hash) {
    && e.Stream? && e.stream.PaymentUpdate? && e.stream.hash == h
    && e.stream.status == SUCCEEDED && !e.stream.debitFails && e.stream.removeFails
  }

  /** A settled entry that is not tracked stays so, status and amount, while its account
      exists. */
  ghost predicate KeepsFinal(s: Service, s': Service) {
    forall id, h :: IsSettled(s, id, h) && !TrackedFor(s, id, h) && id in s'.store.accounts ==>
      && Known(s', id, h) && s'.store.accounts[id].payments[h] == s.store.accounts[id].payments[h]
      && !TrackedFor(s', id, h)
  }

  /** Tracking does not move between accounts. */
  ghost predicate SameOwner(s: Service, s': Service, h: Hash) {
    h in s.pending && h in s'.pending ==> s'.pending[h].account == s.pending[h].account
  }

  /** Nor does it stop to agree with the store. */
  ghost predicate KeepsTracking(s: Service, s': Service, h: Hash) {
    SameOwner(s, s', h) && (AgreesOn(s, h) ==> AgreesOn(s', h))
  }

  /** Everything that a step keeps of settled and of tracked payments. */
  ghost predicate Preserves(s: Service, s': Service) {
    KeepsFinal(s, s') && (s'.enabled ==> s.enabled) && forall h :: KeepsTracking(s, s', h)
  }

  // ---- The effects a service call can have on payments, and what each keeps ----

  /** No payment, tracking or request value changes. */
  ghost predicate OnlyBalances(w: World, w': World) {
    && w'.svc.pending == w.svc.pending
    && (w'.svc.enabled ==> w.svc.enabled)
    && w'.svc.requests == w.svc.requests
    && w'.phase == w.phase
    && w'.owners == w.owners
    && w.ids <= w'.ids
    && Accounts(w').Keys <= w'.ids
    && Accounts(w).Keys <= Accounts(w').Keys
    && (forall id :: id in Accounts(w') && id !in Accounts(w) ==> id !in w.ids)
    && (forall id :: id in Accounts(w) ==>
          Accounts(w')[id].payments == Accounts(w)[id].payments && Accounts(w)[id].invoices <= Accounts(w')[id].invoices)
    && (forall h :: h in w'.svc.invoiceToAccount ==>
          (h in w.svc.invoiceToAccount && w'.svc.invoiceToAccount[h] == w.svc.invoiceToAccount[h]) ||
          (w'.svc.invoiceToAccount[h] in Accounts(w') && h in Accounts(w')[w'.svc.invoiceToAccount[h]].invoices))
  }

  lemma OnlyBalancesKeepsInv(w: World, w': World)
    requires Inv(w) && OnlyBalances(w, w')
    ensures Inv(w') && Preserves(w.svc, w'.svc)
  {
    assert forall id, h :: IsInFlight(w.svc, id, h) ==> IsInFlight(w'.svc, id, h);
    assert forall id, h :: OnRecord(w.svc, id, h) ==> OnRecord(w'.svc, id, h);
    assert forall h :: AgreesOn(w.svc, h) ==> AgreesOn(w'.svc, h);
    assert forall r :: Waiting(w', r) <==> Waiting(w, r);
    assert forall id, h :: id in w.ids && Open(w.svc, id, h) ==> Open(w'.svc, id, h);
    assert RequestsOpen(w');
    assert HandlerConsistent(w');
  }

  /** One payment entry of one account is written; the rest of the payments, the
      request values and the invoice map stay. */
  ghost predicate WritesEntry(s: Service, s': Service, id: AccountID, h: Hash, e: PaymentEntry) {
    && s'.requests == s.requests && (s'.enabled ==> s.enabled)
    && s'.invoiceToAccount == s.invoiceToAccount
    && id in s.store.accounts && id in s'.store.accounts
    && s'.store.accounts == s.store.accounts[id := s'.store.accounts[id]]
    && s'.store.accounts[id].payments == s.store.accounts[id].payments[h := e]
    && s'.store.accounts[id].invoices == s.store.accounts[id].invoices
  }

  /** Nothing that the invariant speaks of changes. */
  ghost predicate Untouched(s: Service, s': Service) {
    s'.store.accounts == s.store.accounts && s'.requests == s.requests && (s'.enabled ==> s.enabled) &&
    s'.invoiceToAccount == s.invoiceToAccount && s'.pending == s.pending
  }

  /** A tracked payment is released with a final status. */
  ghost predicate Releases(s: Service, s': Service, h: Hash) {
    && h in s.pending
    && s'.pending == s.pending - {h}
    && var id := s.pending[h].account;
       && Known(s', id, h)
       && WritesEntry(s, s', id, h, s'.store.accounts[id].payments[h])
       && !InflightState(StatusOf(s', id, h))
  }

  /** A tracked payment in flight is settled and stays tracked, and the service stops. */
  ghost predicate Loses(s: Service, s': Service, h: Hash) {
    && h in s.pending && IsInFlight(s, s.pending[h].account, h)
    && s'.pending == s.pending && !s'.enabled
    && var id := s.pending[h].account;
       && IsSettled(s', id, h)
       && WritesEntry(s, s', id, h, s'.store.accounts[id].payments[h])
  }

  lemma RemovePaymentEffect(s: Service, h: Hash, status: Status, fails: bool)
    requires PendingSound(s) && !InflightState(status)
    ensures var s' := RemovePayment(s, h, status, fails).svc; Untouched(s, s') || Releases(s, s', h)
  {
  }

  lemma PaymentUpdateEffect(s: Service, h: Hash, status: Status, value: Msat, fee: Msat,
                            debitFails: bool, removeFails: bool)
    requires PendingSound(s)
    ensures var s' := ServiceSpec.PaymentUpdate(s, h, status, value, fee, debitFails, removeFails).svc;
            Untouched(s, s') || Releases(s, s', h) ||
            (Loses(s, s', h) && status == SUCCEEDED && !debitFails && removeFails)
  {
    if InflightState(status) || !s.enabled || h !in s.pending {
    } else if status == FAILED {
      RemovePaymentEffect(s, h, FAILED, removeFails);
    } else if debitFails || !removeFails {
      SettleEffect(s, h, value, fee, debitFails);
    } else {
      LossEffect(s, h, value, fee);
    }
  }

  /** A lost removal leaves the settled amount on record and the payment tracked. */
  lemma LossEffect(s: Service, h: Hash, value: Msat, fee: Msat)
    requires PendingSound(s) && s.enabled && h in s.pending
    ensures var s' := ServiceSpec.PaymentUpdate(s, h, SUCCEEDED, value, fee, false, true).svc; Loses(s, s', h)
  {
    assert AgreesOn(s, h);
  }

  /** The debit and the removal that follows it leave the settled amount on record. */
  lemma SettleEffect(s: Service, h: Hash, value: Msat, fee: Msat, debitFails: bool)
    requires PendingSound(s) && s.enabled && h in s.pending
    ensures var s' := ServiceSpec.PaymentUpdate(s, h, SUCCEEDED, value, fee, debitFails, false).svc;
            if debitFails then Untouched(s, s')
            else
              var id := s.pending[h].account;
              Releases(s, s', h) && s'.store.accounts[id].payments[h] == PaymentEntry(SUCCEEDED, ToUint64(value + fee))
  {
    if !debitFails {
      var id := s.pending[h].account;
      var opts := NO_OPTIONS.(debitAccount := true);
      var st := UpsertPayment(s.store, id, h, ToUint64(value + fee), SUCCEEDED, opts).value;
      var s1 := s.(store := st);
      var s' := RemovePayment(s1, h, SUCCEEDED, false).svc;
      assert s'.store.accounts[id].payments[h] == PaymentEntry(SUCCEEDED, ToUint64(value + fee));
    }
  }

  /** What one write does to one hash that stays tracked as it was. */
  lemma WriteKeepsOne(s: Service, s': Service, id: AccountID, h: Hash, e: PaymentEntry, k: Hash)
    requires WritesEntry(s, s', id, h, e) && k in s.pending && OnRecord(s, s.pending[k].account, k)
    requires k in s'.pending ==> s'.pending[k] == s.pending[k]
    requires k == h && s.pending[k].account == id && k in s'.pending ==> e.status != FAILED
    ensures k in s'.pending ==> OnRecord(s', s'.pending[k].account, k)
    ensures k in s'.pending && (k == h && s.pending[k].account == id ==> InflightState(e.status)) ==> KeepsTracking(s, s', k)
    ensures k !in s'.pending ==> KeepsTracking(s, s', k)
  {
  }

  /** Writing an entry that was not settled, or was tracked, touches no final one. */
  lemma WriteKeepsFinal(s: Service, s': Service, id: AccountID, h: Hash, e: PaymentEntry)
    requires WritesEntry(s, s', id, h, e) && (!IsSettled(s, id, h) || TrackedFor(s, id, h))
    requires forall i, k :: TrackedFor(s', i, k) ==> TrackedFor(s, i, k) || (i == id && k == h)
    ensures KeepsFinal(s, s')
  {
  }

  lemma ReleaseKeepsOpen(s: Service, s': Service, h: Hash)
    requires PendingSound(s) && Releases(s, s', h)
    ensures PendingSound(s') && Preserves(s, s') && forall i, k :: Open(s, i, k) ==> Open(s', i, k)
  {
    var id := s.pending[h].account;
    var e := s'.store.accounts[id].payments[h];
    forall k ensures KeepsTracking(s, s', k) && (k in s'.pending ==> OnRecord(s', s'.pending[k].account, k)) {
      if k in s.pending {
        WriteKeepsOne(s, s', id, h, e, k);
      }
    }
    WriteKeepsFinal(s, s', id, h, e);
    AgreementKept(s, s');
  }

  lemma AgreesIsSound(s: Service)
    requires PendingAgrees(s)
    ensures PendingSound(s)
  {
    forall h | h in s.pending ensures OnRecord(s, s.pending[h].account, h) {
      assert IsInFlight(s, s.pending[h].account, h);
    }
  }

  /** Agreement on every hash is agreement. */
  lemma AgreementKept(s: Service, s': Service)
    requires forall h :: KeepsTracking(s, s', h)
    ensures PendingAgrees(s) ==> PendingAgrees(s')
  {
    if PendingAgrees(s) {
      forall h | h in s'.pending ensures IsInFlight(s', s'.pending[h].account, h) {
        assert KeepsTracking(s, s', h) && AgreesOn(s, h);
      }
    }
  }

  lemma LossKeepsOpen(s: Service, s': Service, h: Hash)
    requires PendingSound(s) && Loses(s, s', h)
    ensures PendingSound(s') && KeepsFinal(s, s') && forall k :: SameOwner(s, s', k) && (k != h ==> KeepsTracking(s, s', k))
    ensures forall i, k :: Open(s, i, k) ==> Open(s', i, k)
  {
    var id := s.pending[h].account;
    var e := s'.store.accounts[id].payments[h];
    forall k ensures (k != h ==> KeepsTracking(s, s', k)) && (k in s'.pending ==> OnRecord(s', s'.pending[k].account, k)) {
      if k in s.pending {
        WriteKeepsOne(s, s', id, h, e, k);
      }
    }
    WriteKeepsFinal(s, s', id, h, e);
  }

  lemma LossKeepsInv(w: World, s': Service, h: Hash)
    requires Inv(w) && Loses(w.svc, s', h)
    ensures Inv(w.(svc := s'))
  {
    LossKeepsOpen(w.svc, s', h);
    var w' := w.(svc := s');
    assert forall r :: Waiting(w', r) <==> Waiting(w, r);
    assert RequestsOpen(w');
  }

  lemma ReleaseKeepsInv(w: World, s': Service, h: Hash)
    requires Inv(w) && Releases(w.svc, s', h)
    ensures Inv(w.(svc := s')) && Preserves(w.svc, s')
  {
    ReleaseKeepsOpen(w.svc, s', h);
    var w' := w.(svc := s');
    assert forall r :: Waiting(w', r) <==> Waiting(w, r);
    assert RequestsOpen(w');
  }

  /** A change that concerns no payment and no tracking. */
  lemma UntouchedKeeps(s: Service, s': Service)
    requires PendingSound(s) && s'.store.accounts == s.store.accounts && s'.pending == s.pending && (s'.enabled ==> s.enabled)
    ensures PendingSound(s') && Preserves(s, s') && forall i, k :: Open(s, i, k) <==> Open(s', i, k)
  {
    assert forall k :: k in s.pending ==> OnRecord(s, s.pending[k].account, k);
    assert forall h :: KeepsTracking(s, s', h);
    AgreementKept(s, s');
  }

  /** The handler moves on and the service does not change. */
  lemma HandlerMoves(w: World, s': Service, p: Phase)
    requires Inv(w) && Untouched(w.svc, s') && w.phase.Serving?
    requires p.Serving? && (p.handler.Idle? || p.handler.Removing? || p.handler.Finishing?)
    requires w.phase.handler.Finishing? ==> p == w.phase
    ensures Inv(w.(svc := s', phase := p)) && Preserves(w.svc, s')
  {
    var w' := w.(svc := s', phase := p);
    UntouchedKeeps(w.svc, s');
    assert forall r :: Waiting(w', r) ==> Waiting(w, r);
  }

  lemma UntouchedKeepsInv(w: World, s': Service)
    requires Inv(w) && Untouched(w.svc, s')
    ensures Inv(w.(svc := s')) && Preserves(w.svc, s')
  {
    var w' := w.(svc := s');
    UntouchedKeeps(w.svc, s');
    assert forall r :: Waiting(w', r) <==> Waiting(w, r);
  }

  lemma AssociateEffect(s: Service, id: AccountID, h: Hash, amount: Msat, fails: bool)
    ensures var r := AssociatePayment(s, id, h, amount, fails);
            if r.error.Some? then r.svc == s
            else
              && WritesEntry(s, r.svc, id, h, PaymentEntry(UNKNOWN, amount))
              && r.svc.pending == s.pending
              && !IsInFlight(s, id, h) && !IsSettled(s, id, h)
  {
  }

  /** Writing an entry in flight for a payment that is not tracked for its account. */
  lemma ReserveKeeps(s: Service, s': Service, id: AccountID, h: Hash, e: PaymentEntry)
    requires PendingSound(s) && WritesEntry(s, s', id, h, e) && InflightState(e.status)
    requires s'.pending == s.pending && !IsSettled(s, id, h)
    ensures PendingSound(s') && Preserves(s, s') && forall i, k :: Open(s, i, k) ==> Open(s', i, k)
  {
    forall k ensures KeepsTracking(s, s', k) && (k in s'.pending ==> OnRecord(s', s'.pending[k].account, k)) {
      if k in s.pending {
        WriteKeepsOne(s, s', id, h, e, k);
      }
    }
    WriteKeepsFinal(s, s', id, h, e);
    AgreementKept(s, s');
  }

  lemma AssociateKeepsInv(w: World, fails: bool)
    requires Inv(w) && MessageEnabled(w, SendAssociate(fails))
    ensures var w' := MessageNext(w, SendAssociate(fails)); Inv(w') && Preserves(w.svc, w'.svc)
  {
    var c := w.phase.handler;
    AssociateEffect(w.svc, c.id, c.hash, c.amount, fails);
    var r := AssociatePayment(w.svc, c.id, c.hash, c.amount, fails);
    if r.error.Some? {
      HandlerMoves(w, r.svc, Serving(Idle));
    } else {
      ReserveKeeps(w.svc, r.svc, c.id, c.hash, PaymentEntry(UNKNOWN, c.amount));
      AssociatedKeepsInv(w, r.svc);
    }
  }

  lemma AssociatedKeepsInv(w: World, s': Service)
    requires Inv(w) && w.phase.Serving? && w.phase.handler.Checked? && PendingSound(s')
    requires var c := w.phase.handler;
             WritesEntry(w.svc, s', c.id, c.hash, PaymentEntry(UNKNOWN, c.amount)) && s'.pending == w.svc.pending &&
             !IsInFlight(w.svc, c.id, c.hash) && !IsSettled(w.svc, c.id, c.hash)
    requires forall i, k :: Open(w.svc, i, k) ==> Open(s', i, k)
    ensures var c := w.phase.handler; Inv(w.(svc := s', phase := Serving(Associated(c.req, c.id, c.hash, c.amount))))
  {
    var c := w.phase.handler;
    var w' := w.(svc := s', phase := Serving(Associated(c.req, c.id, c.hash, c.amount)));
    assert forall q :: Waiting(w', q) <==> Waiting(w, q);
    assert RequestsOpen(w');
    assert NoneWaitsFor(w', c.id, c.hash);
    if TrackedFor(w.svc, c.id, c.hash) {
      assert OnRecord(w.svc, c.id, c.hash);
    }
  }

  lemma RegisterKeepsInv(w: World)
    requires Inv(w) && MessageEnabled(w, SendRegister)
    ensures var w' := MessageNext(w, SendRegister); Inv(w') && Preserves(w.svc, w'.svc)
  {
    var c := w.phase.handler;
    if c.req in w.svc.requests {
      HandlerMoves(w, w.svc, Serving(Idle));
    } else {
      var s' := w.svc.(requests := w.svc.requests[c.req := RequestValues(c.hash, c.amount)]);
      var w' := w.(svc := s', phase := Serving(Idle));
      UntouchedKeeps(w.svc, s');
      forall r | Waiting(w', r)
        ensures Open(s', w.owners[r], s'.requests[r].hash)
      {
        assert r != c.req ==> Waiting(w, r);
      }
      assert RequestsOpen(w');
      forall r, q | Waiting(w', r) && Waiting(w', q) && r != q && w.owners[r] == w.owners[q] && w.owners[r] in Accounts(w)
        ensures s'.requests[r].hash != s'.requests[q].hash
      {
        assert r != c.req ==> Waiting(w, r);
        assert q != c.req ==> Waiting(w, q);
      }
      assert RequestsDistinct(w');
    }
  }

  /** What an upsert in flight that does not debit does to an account. */
  lemma UpsertInFlight(a: Account, h: Hash, amount: Msat, opts: UpsertOptions)
    requires opts.errIfAlreadySucceeded && !opts.debitAccount
    ensures var r := UpsertAccount(a, h, amount, UNKNOWN, opts);
            r.Ok? ==>
              && h in r.value.payments && r.value.payments[h].status == UNKNOWN
              && r.value == a.(payments := a.payments[h := r.value.payments[h]])
              && (h in a.payments ==> !SuccessState(a.payments[h].status))
  {
  }

  lemma TrackEffect(s: Service, id: AccountID, h: Hash, amount: Msat, f: TrackFaults)
    ensures var s' := TrackPayment(s, id, h, amount, f).svc;
            Untouched(s, s') ||
            (&& h !in s.pending && !IsSettled(s, id, h) && IsInFlight(s', id, h)
             && WritesEntry(s, s', id, h, s'.store.accounts[id].payments[h])
             && (s'.pending == s.pending || s'.pending == s.pending[h := TrackedPayment(id, amount)]))
    ensures var r := TrackPayment(s, id, h, amount, f);
            r.error.Some? ==> r.svc.pending == s.pending
  {
    if id in s.store.accounts {
      UpsertInFlight(s.store.accounts[id], h, amount, TrackOptions(amount));
    }
  }

  lemma TrackKeepsPending(s: Service, id: AccountID, h: Hash, amount: Msat, f: TrackFaults)
    requires PendingSound(s)
    ensures var s' := TrackPayment(s, id, h, amount, f).svc;
            PendingSound(s') && Preserves(s, s') && (PendingAgrees(s) ==> PendingAgrees(s'))
  {
    var s' := TrackPayment(s, id, h, amount, f).svc;
    TrackEffect(s, id, h, amount, f);
    if !Untouched(s, s') {
      TrackedKeeps(s, s', id, h);
    } else {
      UntouchedKeeps(s, s');
    }
    AgreementKept(s, s');
  }

  lemma TrackedKeeps(s: Service, s': Service, id: AccountID, h: Hash)
    requires PendingSound(s) && h !in s.pending && !IsSettled(s, id, h) && IsInFlight(s', id, h)
    requires WritesEntry(s, s', id, h, s'.store.accounts[id].payments[h])
    requires forall k :: k in s.pending ==> k in s'.pending && s'.pending[k] == s.pending[k]
    requires forall k :: k in s'.pending && k !in s.pending ==> k == h && s'.pending[k].account == id
    ensures PendingSound(s') && Preserves(s, s')
  {
    var e := s'.store.accounts[id].payments[h];
    forall k ensures KeepsTracking(s, s', k) && (k in s'.pending ==> OnRecord(s', s'.pending[k].account, k)) {
      if k in s.pending {
        WriteKeepsOne(s, s', id, h, e, k);
      }
    }
    WriteKeepsFinal(s, s', id, h, e);
    AgreementKept(s, s');
  }

  /** The handler records the outcome of one request; what waits is still open. */
  lemma RecordingKeepsInv(w: World, s': Service, p: Phase)
    requires Inv(w) && PendingSound(s') && s'.requests == w.svc.requests && s'.invoiceToAccount == w.svc.invoiceToAccount
    requires IsIdle(w) && p.Serving? && (p.handler.Idle? || p.handler.Finishing?)
    requires s'.store.accounts.Keys == w.svc.store.accounts.Keys
    requires forall id :: id in s'.store.accounts ==> s'.store.accounts[id].invoices == w.svc.store.accounts[id].invoices
    requires forall q :: q in s'.requests && p != Serving(Finishing(q)) ==> Open(s', w.owners[q], s'.requests[q].hash)
    ensures Inv(w.(svc := s', phase := p))
  {
    var w' := w.(svc := s', phase := p);
    assert forall q :: Waiting(w', q) ==> Waiting(w, q);
    assert RequestsOpen(w');
  }

  /** Writing one entry in flight, and tracking it or not, closes no other payment. */
  lemma TrackKeepsOpen(s: Service, s': Service, id: AccountID, h: Hash, i: AccountID, k: Hash)
    requires Known(s', id, h) && WritesEntry(s, s', id, h, s'.store.accounts[id].payments[h])
    requires IsInFlight(s', id, h) && Open(s, i, k) && h !in s.pending
    requires i != id || k != h
    requires forall x :: x in s'.pending && x != h ==> x in s.pending && s'.pending[x] == s.pending[x]
    requires h in s'.pending ==> s'.pending[h].account == id
    ensures Open(s', i, k)
  {
  }

  lemma ResponseKeepsInv(w: World, req: Uint64, amount: Msat, f: TrackFaults)
    requires Inv(w) && MessageEnabled(w, SendResponse(req, amount, f))
    ensures var w' := MessageNext(w, SendResponse(req, amount, f)); Inv(w') && Preserves(w.svc, w'.svc)
  {
    var s, id, h := w.svc, w.owners[req], w.svc.requests[req].hash;
    var r := TrackPayment(s, id, h, amount, f);
    TrackEffect(s, id, h, amount, f);
    TrackKeepsPending(s, id, h, amount, f);
    if Untouched(s, r.svc) {
      HandlerMoves(w, r.svc, Serving(if r.error.None? then Finishing(req) else Idle));
    } else {
      TrackedKeepsInv(w, r.svc, req, Serving(if r.error.None? then Finishing(req) else Idle));
    }
  }

  /** The request's own payment was written and perhaps tracked. */
  lemma TrackedKeepsInv(w: World, s': Service, req: Uint64, p: Phase)
    requires Inv(w) && IsIdle(w) && req in w.svc.requests && req in w.owners && PendingSound(s')
    requires p == Serving(Finishing(req)) || (p == Serving(Idle) && s'.pending == w.svc.pending)
    requires var id, h := w.owners[req], w.svc.requests[req].hash;
             && h !in w.svc.pending && IsInFlight(s', id, h)
             && WritesEntry(w.svc, s', id, h, s'.store.accounts[id].payments[h])
             && (forall x :: x in s'.pending && x != h ==> x in w.svc.pending && s'.pending[x] == w.svc.pending[x])
             && (h in s'.pending ==> s'.pending[h].account == id)
    ensures Inv(w.(svc := s', phase := p))
  {
    var s, id, h := w.svc, w.owners[req], w.svc.requests[req].hash;
    forall q | q in s.requests && p != Serving(Finishing(q)) ensures Open(s', w.owners[q], s.requests[q].hash) {
      assert Waiting(w, q) && Waiting(w, req) && Open(s, w.owners[q], s.requests[q].hash);
      if q != req {
        TrackKeepsOpen(s, s', id, h, w.owners[q], s.requests[q].hash);
      }
    }
    RecordingKeepsInv(w, s', p);
  }

  /** Deleting an entry that no other request waits for. */
  lemma ErroredEffect(s: Service, id: AccountID, h: Hash, fails: bool)
    requires PendingSound(s) && PaymentErrored(s, id, h, fails).error.None?
    ensures var s' := PaymentErrored(s, id, h, fails).svc;
            && PendingSound(s') && s'.store.accounts.Keys == s.store.accounts.Keys
            && (forall i, k :: (i != id || k != h) && Open(s, i, k) ==> Open(s', i, k))
            && (!IsSettled(s, id, h) ==> Preserves(s, s'))
  {
    var s' := PaymentErrored(s, id, h, fails).svc;
    assert h !in s.pending && s'.pending == s.pending && id in s.store.accounts;
    assert s'.store.accounts[id].payments == s.store.accounts[id].payments - {h};
    assert forall i :: i in s.store.accounts && i != id ==> s'.store.accounts[i] == s.store.accounts[i];
    forall k | k in s'.pending ensures OnRecord(s', s'.pending[k].account, k) && (AgreesOn(s, k) ==> AgreesOn(s', k)) {
      assert OnRecord(s, s.pending[k].account, k);
    }
  }

  lemma ErroredKeepsInv(w: World, req: Uint64, fails: bool)
    requires Inv(w) && MessageEnabled(w, SendError(req, fails))
    ensures var w' := MessageNext(w, SendError(req, fails)); Inv(w') && Preserves(w.svc, w'.svc)
  {
    var s, id, h := w.svc, w.owners[req], w.svc.requests[req].hash;
    var r := PaymentErrored(s, id, h, fails);
    assert Waiting(w, req) && Open(s, id, h);
    if r.error.Some? {
      HandlerMoves(w, r.svc, Serving(Idle));
    } else {
      ErroredEffect(s, id, h, fails);
      forall q | q in s.requests && q != req ensures Open(r.svc, w.owners[q], s.requests[q].hash) {
        assert Waiting(w, q) && Open(s, w.owners[q], s.requests[q].hash);
      }
      RecordingKeepsInv(w, r.svc, Serving(Finishing(req)));
    }
  }

  lemma MessageKeepsInv(w: World, e: MessageEvent)
    requires Inv(w) && MessageEnabled(w, e)
    ensures Inv(MessageNext(w, e)) && Preserves(w.svc, MessageNext(w, e).svc)
  {
    match e
    case AddInvoiceResponse(_, _, _) => InvoiceResponseKeepsInv(w, e);
    case SendRequest(_, _, _, _, _) => RequestKeepsInv(w, e);
    case SendAssociate(fails) => AssociateKeepsInv(w, fails);
    case SendRegister => RegisterKeepsInv(w);
    case SendResponse(req, amount, faults) => ResponseKeepsInv(w, req, amount, faults);
    case SendFailedResponse(req) => DeletingKeepsInv(w, req, Serving(Removing(w.svc.requests[req].hash)));
    case SendError(req, fails) => ErroredKeepsInv(w, req, fails);
    case HandlerDeletes => DeletingKeepsInv(w, w.phase.handler.req, Serving(Idle));
    case HandlerRemoves(fails) => HandlerRemovesKeepsInv(w, fails);
  }

  lemma InvoiceResponseKeepsInv(w: World, e: MessageEvent)
    requires Inv(w) && MessageEnabled(w, e) && e.AddInvoiceResponse?
    ensures Inv(MessageNext(w, e)) && Preserves(w.svc, MessageNext(w, e).svc)
  {
    assert OnlyBalances(w, MessageNext(w, e));
    OnlyBalancesKeepsInv(w, MessageNext(w, e));
  }

  lemma RequestKeepsInv(w: World, e: MessageEvent)
    requires Inv(w) && MessageEnabled(w, e) && e.SendRequest?
    ensures Inv(MessageNext(w, e)) && Preserves(w.svc, MessageNext(w, e).svc)
  {
    var w' := MessageNext(w, e);
    assert forall r :: Waiting(w', r) <==> Waiting(w, r);
    assert RequestsOpen(w');
  }

  lemma HandlerRemovesKeepsInv(w: World, fails: bool)
    requires Inv(w) && MessageEnabled(w, HandlerRemoves(fails))
    ensures var w' := MessageNext(w, HandlerRemoves(fails)); Inv(w') && Preserves(w.svc, w'.svc)
  {
    var h := w.phase.handler.hash;
    RemovalKeepsInv(w, h, fails);
    var s' := RemovePayment(w.svc, h, FAILED, fails).svc;
    HandlerMoves(w.(svc := s'), s', Serving(Idle));
  }

  lemma RemovalKeepsInv(w: World, h: Hash, fails: bool)
    requires Inv(w)
    ensures var s' := RemovePayment(w.svc, h, FAILED, fails).svc; Inv(w.(svc := s')) && Preserves(w.svc, s')
  {
    var s' := RemovePayment(w.svc, h, FAILED, fails).svc;
    RemovePaymentEffect(w.svc, h, FAILED, fails);
    if Untouched(w.svc, s') {
      UntouchedKeepsInv(w, s');
    } else {
      ReleaseKeepsInv(w, s', h);
    }
  }

  lemma DeletingKeepsInv(w: World, req: Uint64, p: Phase)
    requires Inv(w) && w.phase.Serving? && p.Serving? && (p.handler.Idle? || p.handler.Removing?)
    requires w.phase.handler.Finishing? ==> w.phase.handler.req == req
    ensures var s' := DeleteValues(w.svc, req); Inv(w.(svc := s', phase := p)) && Preserves(w.svc, s')
  {
    var s' := DeleteValues(w.svc, req);
    var w' := w.(svc := s', phase := p);
    UntouchedKeeps(w.svc, s');
    assert forall r :: Waiting(w', r) ==> Waiting(w, r);
  }

  lemma CreditInvoiceEffect(w: World, inv: InvoiceEvent, fails: bool)
    requires Accounts(w).Keys <= w.ids
    ensures OnlyBalances(w, w.(svc := CreditInvoice(w.svc, inv, fails).svc))
  {
  }

  lemma InvoiceUpdateEffect(w: World, inv: InvoiceEvent, indexFails: bool, creditFails: bool)
    requires Accounts(w).Keys <= w.ids
    ensures OnlyBalances(w, w.(svc := ServiceSpec.InvoiceUpdate(w.svc, inv, indexFails, creditFails).svc))
  {
    var r := RecordIndexes(w.svc, inv, indexFails);
    if w.svc.enabled && r.error.None? {
      CreditInvoiceEffect(w.(svc := r.svc), inv, creditFails);
    }
  }

  /** What a step keeps: everything, but for a payment whose removal is lost. */
  ghost predicate PreservesBut(s: Service, s': Service, e: Event) {
    && KeepsFinal(s, s') && (forall h :: SameOwner(s, s', h))
    && forall h :: !(LosesRemoval(e, h) && h in s.pending) ==> KeepsTracking(s, s', h)
  }

  lemma PreservesMore(s: Service, s': Service, e: Event)
    requires Preserves(s, s')
    ensures PreservesBut(s, s', e)
  {
    forall h ensures SameOwner(s, s', h) {
      assert KeepsTracking(s, s', h);
    }
  }

  lemma PaymentUpdateKeepsInv(w: World, e: StreamEvent)
    requires Inv(w) && e.PaymentUpdate?
    ensures var s' := StreamNext(w.svc, e); Inv(w.(svc := s')) && PreservesBut(w.svc, s', Stream(e))
  {
    var s' := StreamNext(w.svc, e);
    PaymentUpdateEffect(w.svc, e.hash, e.status, e.value, e.fee, e.debitFails, e.removeFails);
    if Untouched(w.svc, s') {
      UntouchedKeepsInv(w, s');
      PreservesMore(w.svc, s', Stream(e));
    } else if Releases(w.svc, s', e.hash) {
      ReleaseKeepsInv(w, s', e.hash);
      PreservesMore(w.svc, s', Stream(e));
    } else {
      LossKeepsOpen(w.svc, s', e.hash);
      LossKeepsInv(w, s', e.hash);
    }
  }

  lemma OtherStreamsKeepInv(w: World, e: StreamEvent)
    requires Inv(w) && !e.PaymentUpdate?
    ensures var s' := StreamNext(w.svc, e); Inv(w.(svc := s')) && Preserves(w.svc, s')
  {
    match e
    case InvoiceUpdate(inv, indexFails, creditFails) =>
      InvoiceUpdateEffect(w, inv, indexFails, creditFails);
      OnlyBalancesKeepsInv(w, w.(svc := StreamNext(w.svc, e)));
    case NotInitiated(h, fails) => RemovalKeepsInv(w, h, fails);
    case StreamError => UntouchedKeepsInv(w, StreamNext(w.svc, e));
  }

  lemma StreamKeepsInv(w: World, e: StreamEvent)
    requires Inv(w)
    ensures var s' := StreamNext(w.svc, e); Inv(w.(svc := s')) && PreservesBut(w.svc, s', Stream(e))
  {
    if e.PaymentUpdate? {
      PaymentUpdateKeepsInv(w, e);
    } else {
      OtherStreamsKeepInv(w, e);
      PreservesMore(w.svc, StreamNext(w.svc, e), Stream(e));
    }
  }

  lemma DropKeepsOpen(s: Service, id: AccountID, hs: set<Hash>)
    requires PendingSound(s) && hs <= TrackedBy(s, id) && id in s.store.accounts
    ensures var s' := DropTracked(s, id, hs);
            PendingSound(s') && Preserves(s, s') && forall i, k :: Open(s, i, k) ==> Open(s', i, k)
  {
    var s' := DropTracked(s, id, hs);
    forall k ensures KeepsTracking(s, s', k) && (k in s'.pending ==> OnRecord(s', s'.pending[k].account, k)) {
      if k in s.pending {
        assert OnRecord(s, s.pending[k].account, k);
      }
    }
    AgreementKept(s, s');
  }

  /** Dropping tracked payments of one account. */
  lemma DropKeepsInv(w: World, id: AccountID, hs: set<Hash>)
    requires Inv(w) && hs <= TrackedBy(w.svc, id) && id in Accounts(w)
    ensures var s' := DropTracked(w.svc, id, hs); Inv(w.(svc := s')) && Preserves(w.svc, s')
  {
    DropKeepsOpen(w.svc, id, hs);
    var w' := w.(svc := DropTracked(w.svc, id, hs));
    assert forall r :: Waiting(w', r) <==> Waiting(w, r);
    assert RequestsOpen(w');
  }

  /** Deleting an account none of whose payments is tracked. */
  lemma DeleteAccountKeepsInv(w: World, id: AccountID)
    requires Inv(w) && TrackedBy(w.svc, id) == {}
    ensures var s' := w.svc.(store := w.svc.store.(accounts := w.svc.store.accounts - {id}));
            Inv(w.(svc := s')) && Preserves(w.svc, s')
  {
    var s' := w.svc.(store := w.svc.store.(accounts := w.svc.store.accounts - {id}));
    var w' := w.(svc := s');
    forall h | h in s'.pending
      ensures OnRecord(s', s'.pending[h].account, h) && (AgreesOn(w.svc, h) ==> AgreesOn(s', h))
    {
      assert h !in TrackedBy(w.svc, id) && OnRecord(w.svc, s'.pending[h].account, h);
    }
    assert forall i, k :: Open(w.svc, i, k) ==> Open(s', i, k);
    assert forall r :: Waiting(w', r) <==> Waiting(w, r);
    assert RequestsOpen(w');
  }

  /** The service with one balance or expiry written, or none. */
  lemma BalanceWrites(w: World, s': Service, id: AccountID, a: Account)
    requires Accounts(w).Keys <= w.ids && id in Accounts(w)
    requires s' == w.svc.(store := Replace(w.svc.store, id, a))
    requires a.payments == Accounts(w)[id].payments && a.invoices == Accounts(w)[id].invoices
    ensures OnlyBalances(w, w.(svc := s'))
  {
  }

  lemma AdminEffect(w: World, e: AdminEvent)
    requires Accounts(w).Keys <= w.ids && AdminEnabled(w, e) && !e.RemoveAccount?
    ensures OnlyBalances(w, w.(svc := AdminNext(w.svc, e), ids := if e.NewAccount? then w.ids + {e.id} else w.ids))
  {
    var s' := AdminNext(w.svc, e);
    if !e.NewAccount? && s' != w.svc {
      BalanceWrites(w, s', e.id, s'.store.accounts[e.id]);
    }
  }

  lemma RemoveAccountKeepsInv(w: World, id: AccountID, dropped: set<Hash>, fails: bool)
    requires Inv(w) && AdminEnabled(w, RemoveAccount(id, dropped, fails))
    ensures var s' := AdminNext(w.svc, RemoveAccount(id, dropped, fails));
            Inv(w.(svc := s')) && Preserves(w.svc, s')
  {
    if id !in Accounts(w) {
      UntouchedKeepsInv(w, AdminNext(w.svc, RemoveAccount(id, dropped, fails)));
    } else {
      DropKeepsInv(w, id, dropped);
      var w1 := w.(svc := DropTracked(w.svc, id, dropped));
      if !fails {
        assert TrackedBy(w1.svc, id) == {};
        DeleteAccountKeepsInv(w1, id);
      }
    }
  }

  lemma AdminKeepsInv(w: World, e: AdminEvent)
    requires Inv(w) && AdminEnabled(w, e)
    ensures var w' := w.(svc := AdminNext(w.svc, e), ids := if e.NewAccount? then w.ids + {e.id} else w.ids);
            Inv(w') && Preserves(w.svc, w'.svc)
  {
    if e.RemoveAccount? {
      RemoveAccountKeepsInv(w, e.id, e.dropped, e.fails);
    } else {
      AdminEffect(w, e);
      OnlyBalancesKeepsInv(w, w.(svc := AdminNext(w.svc, e), ids := if e.NewAccount? then w.ids + {e.id} else w.ids));
    }
  }

  lemma RestartKeepsInv(w: World, e: LifeEvent)
    requires Inv(w) && LifeEnabled(w, e) && e.Restart?
    ensures Inv(LifeNext(w, e)) && PreservesBut(w.svc, LifeNext(w, e).svc, Life(e))
  {
  }

  lemma DisablingKeeps(s: Service, s': Service)
    requires PendingSound(s') && Preserves(s, s')
    ensures PendingSound(s'.(enabled := false)) && Preserves(s, s'.(enabled := false))
  {
    var t := s'.(enabled := false);
    UntouchedKeeps(s', t);
    forall h ensures KeepsTracking(s, t, h) {
      assert KeepsTracking(s, s', h) && KeepsTracking(s', t, h);
    }
  }

  lemma StartTrackKeepsInv(w: World, e: LifeEvent)
    requires Inv(w) && LifeEnabled(w, e) && e.StartTrack?
    ensures Inv(LifeNext(w, e)) && PreservesBut(w.svc, LifeNext(w, e).svc, Life(e))
  {
    var amount := w.phase.todo[(e.id, e.hash)];
    var r := TrackPayment(w.svc, e.id, e.hash, amount, e.faults);
    TrackKeepsPending(w.svc, e.id, e.hash, amount, e.faults);
    DisablingKeeps(w.svc, r.svc);
    PreservesMore(w.svc, LifeNext(w, e).svc, Life(e));
    StartedKeepsInv(w, e);
  }

  lemma StartedKeepsInv(w: World, e: LifeEvent)
    requires Inv(w) && LifeEnabled(w, e) && e.StartTrack? && PendingSound(LifeNext(w, e).svc)
    ensures Inv(LifeNext(w, e))
  {
    TrackEffect(w.svc, e.id, e.hash, w.phase.todo[(e.id, e.hash)], e.faults);
    StartingKeepsInv(w, LifeNext(w, e));
  }

  /** While the service starts no request is registered, so little is left to keep. */
  lemma StartingKeepsInv(w: World, w': World)
    requires Inv(w) && w.phase.Starting? && (w'.phase.Starting? || w'.phase == Serving(Idle))
    requires PendingSound(w'.svc) && w'.svc.requests == w.svc.requests
    requires w'.owners == w.owners && w'.ids == w.ids && w'.svc.invoiceToAccount == w.svc.invoiceToAccount
    requires Accounts(w').Keys == Accounts(w).Keys
    requires forall id :: id in Accounts(w) ==> Accounts(w')[id].invoices == Accounts(w)[id].invoices
    ensures Inv(w')
  {
  }

  lemma LifeKeepsInv(w: World, e: LifeEvent)
    requires Inv(w) && LifeEnabled(w, e)
    ensures Inv(LifeNext(w, e)) && PreservesBut(w.svc, LifeNext(w, e).svc, Life(e))
  {
    match e
    case Restart(_, _) => RestartKeepsInv(w, e);
    case StartTrack(_, _, _) => StartTrackKeepsInv(w, e);
    case StartSubscribe(_) =>
      UntouchedKeeps(w.svc, LifeNext(w, e).svc);
      PreservesMore(w.svc, LifeNext(w, e).svc, Life(e));
      StartingKeepsInv(w, LifeNext(w, e));
  }

  /** Every step of the protocol, whatever fails in it, keeps the joint invariant and
      every settled entry that is not tracked. */
  lemma StepKeepsInv(w: World, e: Event)
    requires Inv(w) && Enabled(w, e)
    ensures Inv(Next(w, e)) && PreservesBut(w.svc, Next(w, e).svc, e)
  {
    match e
    case Admin(a) =>
      AdminKeepsInv(w, a);
      PreservesMore(w.svc, Next(w, e).svc, e);
    case Stream(m) => StreamKeepsInv(w, m);
    case Message(m) =>
      MessageKeepsInv(w, m);
      PreservesMore(w.svc, Next(w, e).svc, e);
    case Life(l) => LifeKeepsInv(w, l);
  }

  lemma InitialInv(w: World)
    requires Initial(w)
    ensures Inv(w) && PendingAgrees(w.svc)
  {
  }

  lemma {:induction false} RunKeepsInv(w: World, es: seq<Event>)
    requires Inv(w) && IsRun(w, es)
    ensures Inv(After(w, es))
    decreases |es|
  {
    if es != [] {
      StepKeepsInv(w, es[0]);
      RunKeepsInv(Next(w, es[0]), es[1..]);
    }
  }

  /** In no event the removal of this payment is lost. */
  ghost predicate NoLostRemoval(es: seq<Event>, h: Hash) {
    forall e :: e in es ==> !LosesRemoval(e, h)
  }

  /** Only a lost removal of the payment itself makes its tracking disagree. */
  lemma {:induction false} RunKeepsAgreement(w: World, es: seq<Event>, h: Hash)
    requires Inv(w) && IsRun(w, es) && NoLostRemoval(es, h) && AgreesOn(w.svc, h)
    ensures AgreesOn(After(w, es).svc, h)
    decreases |es|
  {
    if es != [] {
      StepKeepsInv(w, es[0]);
      assert es[0] in es && KeepsTracking(w.svc, Next(w, es[0]).svc, h);
      RunKeepsAgreement(Next(w, es[0]), es[1..], h);
    }
  }

  /** An account ID that was used and is gone never names an account again. */
  lemma {:induction false} RemovedForGood(w: World, es: seq<Event>, id: AccountID)
    requires IsRun(w, es) && id in w.ids && id !in Accounts(w)
    ensures id !in Accounts(After(w, es))
    decreases |es|
  {
    if es != [] {
      StepCreatesFresh(w, es[0], id);
      RemovedForGood(Next(w, es[0]), es[1..], id);
    }
  }

  lemma StepCreatesFresh(w: World, e: Event, id: AccountID)
    requires Enabled(w, e) && id in w.ids && id !in Accounts(w)
    ensures id in Next(w, e).ids && id !in Accounts(Next(w, e))
  {
    match e
    case Admin(a) => AdminAddsOnlyNew(w.svc, a);
    case Stream(m) => StreamKeepsKeys(w.svc, m);
    case Message(m) => MessageKeepsKeys(w, m);
    case Life(l) => LifeKeepsKeys(w, l);
  }

  lemma AdminAddsOnlyNew(s: Service, e: AdminEvent)
    ensures AdminNext(s, e).store.accounts.Keys <= s.store.accounts.Keys + (if e.NewAccount? then {e.id} else {})
  {
  }

  lemma RemovePaymentKeepsKeys(s: Service, h: Hash, status: Status, fails: bool)
    ensures RemovePayment(s, h, status, fails).svc.store.accounts.Keys == s.store.accounts.Keys
  {
  }

  lemma PaymentUpdateKeepsKeys(s: Service, h: Hash, status: Status, value: Msat, fee: Msat,
                               debitFails: bool, removeFails: bool)
    ensures var s' := ServiceSpec.PaymentUpdate(s, h, status, value, fee, debitFails, removeFails).svc;
            s'.store.accounts.Keys == s.store.accounts.Keys
  {
    if h in s.pending {
      RemovePaymentKeepsKeys(s, h, status, removeFails);
      var opts := NO_OPTIONS.(debitAccount := true);
      var r := UpsertPayment(s.store, s.pending[h].account, h, ToUint64(value + fee), SUCCEEDED, opts);
      if r.Ok? {
        RemovePaymentKeepsKeys(s.(store := r.value), h, SUCCEEDED, removeFails);
      }
    }
  }

  lemma StreamKeepsKeys(s: Service, e: StreamEvent)
    ensures StreamNext(s, e).store.accounts.Keys == s.store.accounts.Keys
  {
    match e
    case InvoiceUpdate(_, _, _) =>
    case PaymentUpdate(h, status, value, fee, f1, f2) => PaymentUpdateKeepsKeys(s, h, status, value, fee, f1, f2);
    case NotInitiated(h, fails) => RemovePaymentKeepsKeys(s, h, FAILED, fails);
    case StreamError =>
  }

  lemma MessageKeepsKeys(w: World, e: MessageEvent)
    requires MessageEnabled(w, e)
    ensures Accounts(MessageNext(w, e)).Keys == Accounts(w).Keys && MessageNext(w, e).ids == w.ids
  {
  }

  lemma LifeKeepsKeys(w: World, e: LifeEvent)
    requires LifeEnabled(w, e)
    ensures Accounts(LifeNext(w, e)).Keys == Accounts(w).Keys && LifeNext(w, e).ids == w.ids
  {
    if e.StartTrack? {
      TrackEffect(w.svc, e.id, e.hash, w.phase.todo[(e.id, e.hash)], e.faults);
    }
  }

  /** The entry is on record after a run as it was before, unless its account is gone. */
  ghost predicate Stays(w: World, es: seq<Event>, id: AccountID, h: Hash)
    requires Known(w.svc, id, h) && IsRun(w, es)
  {
    id in Accounts(After(w, es)) ==>
      Known(After(w, es).svc, id, h) && Accounts(After(w, es))[id].payments[h] == Accounts(w)[id].payments[h]
  }

  /** Payment finality: an entry that has SUCCEEDED and is not tracked keeps its status and
      amount over every run, with any failures, for as long as its account exists. */
  lemma {:induction false} PaymentFinality(w: World, es: seq<Event>, id: AccountID, h: Hash)
    requires Inv(w) && IsRun(w, es)
    requires IsSettled(w.svc, id, h) && !TrackedFor(w.svc, id, h)
    ensures Stays(w, es, id, h)
    decreases |es|
  {
    if es != [] {
      StepKeepsInv(w, es[0]);
      var w1 := Next(w, es[0]);
      if id in Accounts(w1) {
        PaymentFinality(w1, es[1..], id, h);
      } else {
        IdsOnlyGrow(w, es[0]);
        RemovedForGood(w1, es[1..], id);
      }
    }
  }

  lemma {:induction false} RunSplits(w: World, es: seq<Event>, more: seq<Event>)
    requires IsRun(w, es + more)
    ensures IsRun(w, es) && IsRun(After(w, es), more) && After(w, es + more) == After(After(w, es), more)
    decreases |es|
  {
    if es == [] {
      assert es + more == more;
    } else {
      assert (es + more)[1..] == es[1..] + more;
      RunSplits(Next(w, es[0]), es[1..], more);
    }
  }

  /** A removal of the account that gets as far as this payment and then fails turns a
      settled payment that is still tracked into a FAILED one. */
  lemma TrackedIsNotFinal(w: World, id: AccountID, h: Hash)
    requires Inv(w) && IsSettled(w.svc, id, h) && TrackedFor(w.svc, id, h)
    ensures var es := [Admin(RemoveAccount(id, {h}, true))];
            IsRun(w, es) && id in Accounts(After(w, es)) && !Stays(w, es, id, h)
  {
    var e := Admin(RemoveAccount(id, {h}, true));
    assert {h} <= TrackedBy(w.svc, id);
    assert Enabled(w, e) && [e][1..] == [];
    assert IsRun(Next(w, e), []) && After(w, [e]) == Next(w, e);
    assert Accounts(Next(w, e))[id].payments[h].status == FAILED;
  }

  /** Exactly when a payment is final: a settled entry stays over every run that can
      follow if and only if it is not tracked for its account any more. */
  lemma FinalIff(w: World, id: AccountID, h: Hash)
    requires Inv(w) && IsSettled(w.svc, id, h)
    ensures (forall es :: IsRun(w, es) ==> Stays(w, es, id, h)) <==> !TrackedFor(w.svc, id, h)
  {
    if TrackedFor(w.svc, id, h) {
      TrackedIsNotFinal(w, id, h);
    } else {
      forall es | IsRun(w, es) ensures Stays(w, es, id, h) {
        PaymentFinality(w, es, id, h);
      }
    }
  }

  /** Payment finality from installation on, over every run with any failures. A payment
      that has SUCCEEDED is final if and only if it is no longer tracked; it is not
      tracked whenever the service is enabled, and whenever the write that ends its own
      tracking never failed. */
  lemma FinalityInEveryRun(w: World, es: seq<Event>, id: AccountID, h: Hash)
    requires Initial(w) && IsRun(w, es) && IsSettled(After(w, es).svc, id, h)
    ensures var now := After(w, es);
            && ((forall more :: IsRun(now, more) ==> Stays(now, more, id, h)) <==> !TrackedFor(now.svc, id, h))
            && (now.svc.enabled || NoLostRemoval(es, h) ==> !TrackedFor(now.svc, id, h))
  {
    InitialInv(w);
    RunKeepsInv(w, es);
    FinalIff(After(w, es), id, h);
    if NoLostRemoval(es, h) {
      RunKeepsAgreement(w, es, h);
    }
    assert After(w, es).svc.enabled || NoLostRemoval(es, h) ==> AgreesOn(After(w, es).svc, h);
  }

  lemma IdsOnlyGrow(w: World, e: Event)
    requires Enabled(w, e)
    ensures w.ids <= Next(w, e).ids
  {
  }

  lemma PaymentUpdateTouchesOne(s: Service, e: StreamEvent, id: AccountID)
    requires e.PaymentUpdate? && id in s.store.accounts
    requires e.hash in s.pending ==> s.pending[e.hash].account != id
    ensures var m := StreamNext(s, e).store.accounts; id in m && m[id] == s.store.accounts[id]
  {
    if e.hash in s.pending {
      var opts := NO_OPTIONS.(debitAccount := true);
      var r := UpsertPayment(s.store, s.pending[e.hash].account, e.hash, ToUint64(e.value + e.fee), SUCCEEDED, opts);
      if r.Ok? {
        assert r.value.accounts[id] == s.store.accounts[id];
      }
    }
  }

  /** A settled payment is never debited again, not even one that is still tracked:
      further updates for its hash leave its account as it is, whatever fails. */
  lemma SettledNotDebitedAgain(w: World, e: StreamEvent, id: AccountID)
    requires Inv(w) && e.PaymentUpdate? && IsSettled(w.svc, id, e.hash)
    ensures var m := StreamNext(w.svc, e).store.accounts; id in m && m[id] == Accounts(w)[id]
  {
    if w.svc.enabled {
      assert AgreesOn(w.svc, e.hash);
      PaymentUpdateTouchesOne(w.svc, e, id);
    }
  }

  /** Cache agreement: in every reachable state each tracked payment is on record in an
      existing account, in flight as long as the service is enabled or its own removal
      was never lost, and an invoice mapped to an account that still exists is one of its
      stored invoices. */
  lemma CacheAgreement(w: World, es: seq<Event>)
    requires Initial(w) && IsRun(w, es)
    ensures var s := After(w, es).svc;
            && (forall h :: h in s.pending ==> OnRecord(s, s.pending[h].account, h))
            && (forall h :: h in s.pending && (s.enabled || NoLostRemoval(es, h)) ==> IsInFlight(s, s.pending[h].account, h))
            && InvoicesBacked(s)
  {
    InitialInv(w);
    RunKeepsInv(w, es);
    var s := After(w, es).svc;
    forall h | h in s.pending && (s.enabled || NoLostRemoval(es, h)) ensures IsInFlight(s, s.pending[h].account, h) {
      if !s.enabled {
        RunKeepsAgreement(w, es, h);
      }
      assert AgreesOn(s, h);
    }
  }

  lemma {:induction false} WithoutRemovalAllIdsLive(w: World, es: seq<Event>)
    requires Inv(w) && IsRun(w, es)
    requires Accounts(w).Keys == w.ids
    requires forall e :: e in es ==> !(e.Admin? && e.admin.RemoveAccount?)
    ensures Accounts(After(w, es)).Keys == After(w, es).ids
    decreases |es|
  {
    if es != [] {
      StepKeepsInv(w, es[0]);
      match es[0] {
        case Admin(a) => AdminEffect(w, a);
        case Stream(m) => StreamKeepsKeys(w.svc, m);
        case Message(m) => MessageKeepsKeys(w, m);
        case Life(l) => LifeKeepsKeys(w, l);
      }
      WithoutRemovalAllIdsLive(Next(w, es[0]), es[1..]);
    }
  }

  /** In runs that remove no account, every invoice mapping is backed by a stored invoice. */
  lemma InvoiceMappingsBacked(w: World, es: seq<Event>, h: Hash)
    requires Initial(w) && IsRun(w, es)
    requires forall e :: e in es ==> !(e.Admin? && e.admin.RemoveAccount?)
    requires h in After(w, es).svc.invoiceToAccount
    ensures var s := After(w, es).svc;
            s.invoiceToAccount[h] in s.store.accounts && h in s.store.accounts[s.invoiceToAccount[h]].invoices
  {
    InitialInv(w);
    RunKeepsInv(w, es);
    WithoutRemovalAllIdsLive(w, es);
  }

  /** A removal that reports success leaves nothing of the account tracked. */
  lemma RemovalLeavesNothingTracked(s: Service, id: AccountID, dropped: set<Hash>, r: Step)
    requires AccountRemoval(s, id, dropped, r) && r.error.None?
    ensures TrackedBy(r.svc, id) == {} && id !in r.svc.store.accounts
    ensures forall i :: i != id ==> TrackedBy(r.svc, i) == TrackedBy(s, i)
  {
    assert forall h :: h in r.svc.pending ==> h in s.pending && h !in TrackedBy(s, id);
    forall i | i != id
      ensures TrackedBy(r.svc, i) == TrackedBy(s, i)
    {
      assert forall h :: h in TrackedBy(s, i) ==> h !in dropped;
    }
  }

  /** The removed account's invoices stay mapped, and the next settlement of one of
      them disables the whole service. */
  lemma StaleInvoiceDisables(s: Service, inv: InvoiceEvent, indexFails: bool, creditFails: bool)
    requires s.enabled && inv.settled && inv.hash in s.invoiceToAccount
    requires s.invoiceToAccount[inv.hash] !in s.store.accounts
    ensures !ServiceSpec.InvoiceUpdate(s, inv, indexFails, creditFails).svc.enabled
  {
  }

  /** How a payment comes to be settled and tracked: when the write that ends tracking
      fails after the debit, from every state with the payment tracked. */
  lemma LostRemovalBreaksFinality(w: World, h: Hash, value: Msat, fee: Msat)
    requires Inv(w) && w.svc.enabled && h in w.svc.pending
    ensures var id := w.svc.pending[h].account;
            var e := Stream(PaymentUpdate(h, SUCCEEDED, value, fee, false, true));
            var w' := Next(w, e);
            && LosesRemoval(e, h) && Enabled(w, e) && IsSettled(w'.svc, id, h) && TrackedFor(w'.svc, id, h)
            && exists es :: IsRun(w', es) && id in Accounts(After(w', es)) && !Stays(w', es, id, h)
  {
    var id := w.svc.pending[h].account;
    var e := Stream(PaymentUpdate(h, SUCCEEDED, value, fee, false, true));
    LossEffect(w.svc, h, value, fee);
    StepKeepsInv(w, e);
    TrackedIsNotFinal(Next(w, e), id, h);
  }
}
