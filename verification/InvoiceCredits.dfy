/** Invoice settlements are credited at most once, across failures and restarts,
    because the settle index is stored before the credit. */
module InvoiceCredits {
  import opened AccountTypes
  import opened AccountStore
  import opened ServiceSpec
  import opened Protocol
  import opened Finality
  import opened Ledger

  /** While the service runs on a live subscription, memory and store agree on the indexes. */
  ghost predicate IndexesAgree(w: World) {
    w.floor.Some? && w.svc.enabled ==> KnownIndexes(w.svc.store) == w.svc.current
  }

  ghost predicate NoLower(a: Indexes, b: Indexes) {
    a.add <= b.add && a.settle <= b.settle
  }

  /** Only invoice updates write the indexes. */
  lemma OtherStreamsKeepIndexes(s: Service, e: StreamEvent)
    requires !e.InvoiceUpdate?
    ensures var s' := StreamNext(s, e);
            s'.store.indexes == s.store.indexes && s'.current == s.current && (s'.enabled ==> s.enabled)
  {
    match e
    case PaymentUpdate(h, status, value, fee, f1, f2) =>
      if h in s.pending {
        var r := UpsertPayment(s.store, s.pending[h].account, h, ToUint64(value + fee), SUCCEEDED,
                               NO_OPTIONS.(debitAccount := true));
        if r.Ok? {
          RemovalKeepsIndexes(s.(store := r.value), h, SUCCEEDED, f2);
        }
        RemovalKeepsIndexes(s, h, FAILED, f2);
      }
    case NotInitiated(h, fails) => RemovalKeepsIndexes(s, h, FAILED, fails);
    case StreamError =>
  }

  lemma RemovalKeepsIndexes(s: Service, h: Hash, status: Status, fails: bool)
    ensures var s' := RemovePayment(s, h, status, fails).svc;
            s'.store.indexes == s.store.indexes && s'.current == s.current && s'.enabled == s.enabled
  {
  }

  lemma AdminKeepsIndexes(s: Service, e: AdminEvent)
    ensures var s' := AdminNext(s, e);
            s'.store.indexes == s.store.indexes && s'.current == s.current && (s'.enabled ==> s.enabled)
  {
  }

  lemma MessageKeepsIndexes(w: World, e: MessageEvent)
    requires MessageEnabled(w, e)
    ensures var w' := MessageNext(w, e);
            && w'.svc.store.indexes == w.svc.store.indexes && w'.svc.current == w.svc.current
            && (w'.svc.enabled ==> w.svc.enabled) && w'.floor == w.floor
  {
    if e.SendResponse? {
      TrackKeepsIndexes(w.svc, w.owners[e.req], w.svc.requests[e.req].hash, e.amount, e.faults);
    } else if e.HandlerRemoves? {
      RemovalKeepsIndexes(w.svc, w.phase.handler.hash, FAILED, e.fails);
    }
  }

  lemma TrackKeepsIndexes(s: Service, id: AccountID, h: Hash, amount: Msat, f: TrackFaults)
    ensures var s' := TrackPayment(s, id, h, amount, f).svc;
            s'.store.indexes == s.store.indexes && s'.current == s.current && (s'.enabled ==> s.enabled)
  {
  }

  lemma LifeKeepsStoredIndexes(w: World, e: LifeEvent)
    requires LifeEnabled(w, e) && IndexesAgree(w)
    ensures var w' := LifeNext(w, e);
            && w'.svc.store.indexes == w.svc.store.indexes && IndexesAgree(w')
            && (w'.floor.Some? ==> w'.floor == w.floor || w'.floor.value == KnownIndexes(w.svc.store).settle)
            && (e.StartTrack? ==> w'.svc.current == w.svc.current)
  {
    if e.StartTrack? {
      TrackKeepsIndexes(w.svc, e.id, e.hash, w.phase.todo[(e.id, e.hash)], e.faults);
    }
  }

  lemma InvoiceMovesIndexes(s: Service, inv: InvoiceEvent, indexFails: bool, creditFails: bool)
    requires s.enabled ==> KnownIndexes(s.store) == s.current
    ensures var s' := ServiceSpec.InvoiceUpdate(s, inv, indexFails, creditFails).svc;
            && NoLower(KnownIndexes(s.store), KnownIndexes(s'.store))
            && NoLower(s.current, s'.current)
            && (s'.enabled ==> s.enabled && KnownIndexes(s'.store) == s'.current)
            && (CreditsInvoice(s, inv, indexFails, creditFails) ==> inv.settleIndex <= KnownIndexes(s'.store).settle)
  {
    var r := RecordIndexes(s, inv, indexFails);
    if s.enabled && r.error.None? {
      var s' := CreditInvoice(r.svc, inv, creditFails).svc;
      assert s'.store.indexes == r.svc.store.indexes && s'.current == r.svc.current;
    }
  }

  /** The stored indexes never decrease; the ones in memory never decrease between
      restarts, and a restart resumes from the stored ones. */
  lemma IndexesNeverDecrease(w: World, e: Event)
    requires Enabled(w, e) && IndexesAgree(w)
    ensures IndexesAgree(Next(w, e))
    ensures NoLower(KnownIndexes(w.svc.store), KnownIndexes(Next(w, e).svc.store))
    ensures (e.Life? && !e.life.StartTrack?) || NoLower(w.svc.current, Next(w, e).svc.current)
  {
    match e
    case Admin(a) => AdminKeepsIndexes(w.svc, a);
    case Stream(InvoiceUpdate(inv, f1, f2)) => InvoiceMovesIndexes(w.svc, inv, f1, f2);
    case Stream(m) => OtherStreamsKeepIndexes(w.svc, m);
    case Message(m) => MessageKeepsIndexes(w, m);
    case Life(l) => LifeKeepsStoredIndexes(w, l);
  }

  /** The settlement an event credits. */
  ghost function CreditedSettlement(w: World, e: Event): Option<Uint64> {
    match e
    case Stream(InvoiceUpdate(inv, indexFails, creditFails)) =>
      if CreditsInvoice(w.svc, inv, indexFails, creditFails) then Some(inv.settleIndex) else None
    case _ => None
  }

  ghost function CreditedSettlements(w: World, es: seq<Event>): seq<Uint64>
    requires IsRun(w, es)
    decreases |es|
  {
    if es == [] then []
    else
      var rest := CreditedSettlements(Next(w, es[0]), es[1..]);
      var k := CreditedSettlement(w, es[0]);
      if k.Some? then [k.value] + rest else rest
  }

  ghost predicate IncreasingAbove(ks: seq<Uint64>, bound: int) {
    && (forall i :: 0 <= i < |ks| ==> ks[i] > bound)
    && (forall i, j :: 0 <= i < j < |ks| ==> ks[i] < ks[j])
  }

  /** All settlements credited so far are at most bound. */
  ghost predicate Covers(w: World, bound: int) {
    bound <= KnownIndexes(w.svc.store).settle && (w.floor.Some? ==> bound <= w.floor.value)
  }

  lemma StepCovers(w: World, e: Event, bound: int)
    requires Enabled(w, e) && IndexesAgree(w) && Covers(w, bound)
    ensures var k := CreditedSettlement(w, e);
            if k.Some? then k.value > bound && Covers(Next(w, e), k.value) else Covers(Next(w, e), bound)
  {
    IndexesNeverDecrease(w, e);
    match e
    case Stream(InvoiceUpdate(inv, f1, f2)) => InvoiceMovesIndexes(w.svc, inv, f1, f2);
    case Message(m) => MessageKeepsIndexes(w, m);
    case Life(l) => LifeKeepsStoredIndexes(w, l);
    case _ =>
  }

  lemma {:induction false} SettlementsIncrease(w: World, es: seq<Event>, bound: int)
    requires IsRun(w, es) && IndexesAgree(w) && Covers(w, bound)
    ensures IncreasingAbove(CreditedSettlements(w, es), bound)
    decreases |es|
  {
    if es != [] {
      IndexesNeverDecrease(w, es[0]);
      StepCovers(w, es[0], bound);
      var k := CreditedSettlement(w, es[0]);
      SettlementsIncrease(Next(w, es[0]), es[1..], if k.Some? then k.value else bound);
    }
  }

  /** At most once: over every run of updates, failures and restarts, the settlements
      credited have strictly increasing settle indexes, so none is credited twice. */
  lemma CreditedAtMostOnce(w: World, es: seq<Event>, i: nat, j: nat)
    requires Initial(w) && IsRun(w, es)
    requires i < j < |CreditedSettlements(w, es)|
    ensures CreditedSettlements(w, es)[i] < CreditedSettlements(w, es)[j]
  {
    SettlementsIncrease(w, es, 0);
  }

  lemma {:induction false} RunCovers(w: World, es: seq<Event>, bound: int)
    requires IsRun(w, es) && IndexesAgree(w) && Covers(w, bound)
    ensures Covers(After(w, es), bound)
    decreases |es|
  {
    if es != [] {
      StepCovers(w, es[0], bound);
      IndexesNeverDecrease(w, es[0]);
      RunCovers(Next(w, es[0]), es[1..], bound);
    }
  }

  /** Not exactly once: when the credit fails after its index was stored, no account
      changes, and in no run that follows, with whatever restarts, is that settlement
      delivered again. */
  lemma FailedCreditIsLost(w: World, inv: InvoiceEvent, es: seq<Event>)
    requires IndexesAgree(w) && w.svc.enabled && StreamEnabled(w, InvoiceUpdate(inv, false, true))
    requires CreditTarget(w.svc, inv).Some?
    requires IsRun(Next(w, Stream(InvoiceUpdate(inv, false, true))), es)
    ensures var w1 := Next(w, Stream(InvoiceUpdate(inv, false, true)));
            Accounts(w1) == Accounts(w) && !StreamEnabled(After(w1, es), InvoiceUpdate(inv, false, false))
  {
    var e := Stream(InvoiceUpdate(inv, false, true));
    InvoiceResult(w.svc, inv, false, true);
    InvoiceMovesIndexes(w.svc, inv, false, true);
    IndexesNeverDecrease(w, e);
    var w1 := Next(w, e);
    assert inv.settleIndex <= KnownIndexes(w1.svc.store).settle;
    RunCovers(w1, es, inv.settleIndex);
  }

  /** Both indexes become the larger of what was stored and what the update carries. */
  lemma LargestIndexesStored(s: Service, inv: InvoiceEvent, creditFails: bool)
    requires s.enabled && KnownIndexes(s.store) == s.current
    ensures var was, now := s.current, KnownIndexes(ServiceSpec.InvoiceUpdate(s, inv, false, creditFails).svc.store);
            && NoLower(was, now) && inv.addIndex <= now.add && inv.settleIndex <= now.settle
            && now.add in {was.add, inv.addIndex} && now.settle in {was.settle, inv.settleIndex}
  {
    var r := RecordIndexes(s, inv, false);
    var s' := CreditInvoice(r.svc, inv, creditFails).svc;
    assert s'.store.indexes == r.svc.store.indexes;
  }

  // ---- A stored invoice is credited when it settles ----

  ghost predicate HasInvoice(s: Service, id: AccountID, h: Hash) {
    id in s.store.accounts && h in s.store.accounts[id].invoices
  }

  ghost predicate MappedTo(s: Service, id: AccountID, h: Hash) {
    h in s.invoiceToAccount && s.invoiceToAccount[h] == id
  }

  /** An associated invoice is stored and mapped, the others stay as they were; it is
      refused only for a missing account or a failing store. */
  lemma AssociatedIsMapped(s: Service, id: AccountID, h: Hash, fails: bool)
    ensures var r := AssociateInvoice(s, id, h, fails);
            && (r.error.None? <==> id in s.store.accounts && !fails)
            && (r.error.None? ==> HasInvoice(r.svc, id, h) && MappedTo(r.svc, id, h))
            && (r.error.Some? ==> r.svc == s)
            && r.svc.enabled == s.enabled && r.svc.pending == s.pending && r.svc.requests == s.requests
            && (forall i, k :: (i, k) != (id, h) ==> (HasInvoice(r.svc, i, k) <==> HasInvoice(s, i, k)))
            && (forall i, k :: k != h ==> (MappedTo(r.svc, i, k) <==> MappedTo(s, i, k)))
            && r.svc.store.accounts.Keys == s.store.accounts.Keys
            && (forall i :: i in s.store.accounts ==> r.svc.store.accounts[i].balance == s.store.accounts[i].balance)
  {
  }

  /** A settlement raises the balance of the one account whose invoice it is by the amount
      paid, and is done with: a second one for the same hash credits nobody. */
  ghost predicate Receives(s: Service, s': Service, id: AccountID, inv: InvoiceEvent) {
    && s'.enabled && inv.hash !in s'.invoiceToAccount
    && id in s.store.accounts
    && var a := s.store.accounts[id];
       s'.store.accounts == s.store.accounts[id := a.(balance := ToInt64(a.balance + inv.amountPaid))]
  }

  lemma MappedIsCredited(s: Service, inv: InvoiceEvent, id: AccountID)
    requires s.enabled && MappedTo(s, id, inv.hash) && id in s.store.accounts
    requires inv.settled && inv.amountPaid <= MAX_INT64
    ensures Receives(s, ServiceSpec.InvoiceUpdate(s, inv, false, false).svc, id, inv)
  {
    InvoiceResult(s, inv, false, false);
    assert CreditsInvoice(s, inv, false, false);
    assert CreditTarget(RecordIndexes(s, inv, false).svc, inv) == Some(id);
  }

  lemma AssociatedIsCredited(s: Service, id: AccountID, h: Hash, inv: InvoiceEvent)
    requires s.enabled && id in s.store.accounts && inv.hash == h && inv.settled && inv.amountPaid <= MAX_INT64
    ensures var s1 := AssociateInvoice(s, id, h, false).svc;
            var s2 := ServiceSpec.InvoiceUpdate(s1, inv, false, false).svc;
            && id in s2.store.accounts
            && s2.store.accounts[id].balance == ToInt64(s.store.accounts[id].balance + inv.amountPaid)
  {
    AssociatedIsMapped(s, id, h, false);
    MappedIsCredited(AssociateInvoice(s, id, h, false).svc, inv, id);
  }

  /** No other account has the invoice, and while the service runs it is mapped to the
      account that has it. */
  ghost predicate Mapped(s: Service, id: AccountID, h: Hash) {
    && (forall i :: i != id ==> !HasInvoice(s, i, h))
    && (s.enabled && HasInvoice(s, id, h) ==> MappedTo(s, id, h))
  }

  /** An event that gives the invoice to another account, or settles it. */
  ghost predicate Diverts(e: Event, id: AccountID, h: Hash) {
    match e
    case Message(AddInvoiceResponse(i, k, _)) => i != id && k == h
    case Stream(InvoiceUpdate(inv, _, _)) => inv.settled && inv.hash == h
    case _ => false
  }

  /** An account has its invoices for as long as it exists. */
  ghost predicate KeepsInvoices(s: Service, s': Service) {
    forall i, h :: HasInvoice(s, i, h) && i in s'.store.accounts ==> HasInvoice(s', i, h)
  }

  /** No account loses or gets an invoice, and the map stays. */
  ghost predicate SameInvoices(s: Service, s': Service) {
    && s'.invoiceToAccount == s.invoiceToAccount && (s'.enabled ==> s.enabled)
    && (forall i, h :: HasInvoice(s', i, h) ==> HasInvoice(s, i, h))
    && KeepsInvoices(s, s')
  }

  lemma SameInvoicesKeep(s: Service, s': Service, id: AccountID, h: Hash)
    requires Mapped(s, id, h) && SameInvoices(s, s')
    ensures Mapped(s', id, h)
  {
  }

  lemma RemovalKeepsInvoices(s: Service, h: Hash, status: Status, fails: bool)
    ensures SameInvoices(s, RemovePayment(s, h, status, fails).svc)
  {
  }

  lemma UpdateKeepsInvoices(s: Service, h: Hash, status: Status, value: Msat, fee: Msat, debitFails: bool, removeFails: bool)
    ensures SameInvoices(s, ServiceSpec.PaymentUpdate(s, h, status, value, fee, debitFails, removeFails).svc)
  {
    if !InflightState(status) && h in s.pending {
      RemovalKeepsInvoices(s, h, FAILED, removeFails);
      var r := UpsertPayment(s.store, s.pending[h].account, h, ToUint64(value + fee), SUCCEEDED, NO_OPTIONS.(debitAccount := true));
      if r.Ok? {
        assert SameInvoices(s, s.(store := r.value));
        RemovalKeepsInvoices(s.(store := r.value), h, SUCCEEDED, removeFails);
      }
    }
  }

  lemma TrackKeepsInvoices(s: Service, id: AccountID, h: Hash, amount: Msat, f: TrackFaults)
    ensures SameInvoices(s, TrackPayment(s, id, h, amount, f).svc)
  {
  }

  lemma AdminKeepsInvoices(w: World, e: AdminEvent)
    requires AdminEnabled(w, e) && Accounts(w).Keys <= w.ids
    ensures SameInvoices(w.svc, AdminNext(w.svc, e))
  {
  }

  lemma ReserveKeepsInvoices(s: Service, id: AccountID, h: Hash, amount: Msat, fails: bool)
    ensures SameInvoices(s, AssociatePayment(s, id, h, amount, fails).svc)
    ensures SameInvoices(s, PaymentErrored(s, id, h, fails).svc)
  {
  }

  /** Any other settlement, and any update that settles nothing, keeps the mapping. */
  lemma OtherInvoiceKeepsMapped(s: Service, inv: InvoiceEvent, indexFails: bool, creditFails: bool, id: AccountID, h: Hash)
    requires Mapped(s, id, h) && !(inv.settled && inv.hash == h)
    ensures var s' := ServiceSpec.InvoiceUpdate(s, inv, indexFails, creditFails).svc; Mapped(s', id, h) && KeepsInvoices(s, s')
  {
    InvoiceResult(s, inv, indexFails, creditFails);
    var s' := ServiceSpec.InvoiceUpdate(s, inv, indexFails, creditFails).svc;
    assert forall i, k :: HasInvoice(s', i, k) <==> HasInvoice(s, i, k);
    assert s'.enabled && MappedTo(s, id, h) ==> MappedTo(s', id, h);
  }

  lemma StreamKeepsMapped(s: Service, e: StreamEvent, id: AccountID, h: Hash)
    requires Mapped(s, id, h) && !Diverts(Stream(e), id, h)
    ensures Mapped(StreamNext(s, e), id, h) && KeepsInvoices(s, StreamNext(s, e))
  {
    if e.InvoiceUpdate? {
      OtherInvoiceKeepsMapped(s, e.inv, e.indexFails, e.creditFails, id, h);
    } else {
      if e.PaymentUpdate? {
        UpdateKeepsInvoices(s, e.hash, e.status, e.value, e.fee, e.debitFails, e.removeFails);
      } else if e.NotInitiated? {
        RemovalKeepsInvoices(s, e.hash, FAILED, e.fails);
      }
      SameInvoicesKeep(s, StreamNext(s, e), id, h);
    }
  }

  lemma MessageKeepsMapped(w: World, e: MessageEvent, id: AccountID, h: Hash)
    requires MessageEnabled(w, e) && Mapped(w.svc, id, h) && !Diverts(Message(e), id, h)
    ensures Mapped(MessageNext(w, e).svc, id, h) && KeepsInvoices(w.svc, MessageNext(w, e).svc)
  {
    if e.AddInvoiceResponse? {
      AssociatedIsMapped(w.svc, e.id, e.hash, e.fails);
    } else {
      MessageKeepsInvoices(w, e);
      SameInvoicesKeep(w.svc, MessageNext(w, e).svc, id, h);
    }
  }

  lemma MessageKeepsInvoices(w: World, e: MessageEvent)
    requires MessageEnabled(w, e) && !e.AddInvoiceResponse?
    ensures SameInvoices(w.svc, MessageNext(w, e).svc)
  {
    if e.SendAssociate? {
      ReserveKeepsInvoices(w.svc, w.phase.handler.id, w.phase.handler.hash, w.phase.handler.amount, e.fails);
    } else if e.SendResponse? {
      TrackKeepsInvoices(w.svc, w.owners[e.req], w.svc.requests[e.req].hash, e.amount, e.faults);
    } else if e.SendError? {
      ReserveKeepsInvoices(w.svc, w.owners[e.req], w.svc.requests[e.req].hash, 0, e.fails);
    } else if e.HandlerRemoves? {
      RemovalKeepsInvoices(w.svc, w.phase.handler.hash, FAILED, e.fails);
    }
  }

  /** A restart maps the stored invoices again. */
  lemma LifeKeepsMapped(w: World, e: LifeEvent, id: AccountID, h: Hash)
    requires LifeEnabled(w, e) && Mapped(w.svc, id, h)
    ensures Mapped(LifeNext(w, e).svc, id, h) && KeepsInvoices(w.svc, LifeNext(w, e).svc)
  {
    if e.Restart? {
      RestartMaps(w, e, id, h);
    } else {
      if e.StartTrack? {
        TrackKeepsInvoices(w.svc, e.id, e.hash, w.phase.todo[(e.id, e.hash)], e.faults);
      }
      SameInvoicesKeep(w.svc, LifeNext(w, e).svc, id, h);
    }
  }

  lemma RestartMaps(w: World, e: LifeEvent, id: AccountID, h: Hash)
    requires LifeEnabled(w, e) && e.Restart? && Mapped(w.svc, id, h)
    ensures Mapped(LifeNext(w, e).svc, id, h) && KeepsInvoices(w.svc, LifeNext(w, e).svc)
  {
    var s' := LifeNext(w, e).svc;
    assert forall i, k :: HasInvoice(s', i, k) <==> HasInvoice(w.svc, i, k);
    if s'.enabled && HasInvoice(s', id, h) {
      assert h in e.mapped && HasInvoice(w.svc, e.mapped[h], h);
    }
  }

  lemma StepKeepsMapped(w: World, e: Event, id: AccountID, h: Hash)
    requires Inv(w) && Enabled(w, e) && Mapped(w.svc, id, h) && !Diverts(e, id, h)
    ensures Mapped(Next(w, e).svc, id, h) && KeepsInvoices(w.svc, Next(w, e).svc)
  {
    match e
    case Admin(a) =>
      AdminKeepsInvoices(w, a);
      SameInvoicesKeep(w.svc, AdminNext(w.svc, a), id, h);
    case Stream(m) => StreamKeepsMapped(w.svc, m, id, h);
    case Message(m) => MessageKeepsMapped(w, m, id, h);
    case Life(l) => LifeKeepsMapped(w, l, id, h);
  }

  /** An account that has the invoice and still exists has it still. */
  lemma {:induction false} RunKeepsMapped(w: World, es: seq<Event>, id: AccountID, h: Hash)
    requires Inv(w) && IsRun(w, es) && Mapped(w.svc, id, h) && forall e :: e in es ==> !Diverts(e, id, h)
    ensures Mapped(After(w, es).svc, id, h)
    ensures HasInvoice(w.svc, id, h) && id in Accounts(After(w, es)) ==> HasInvoice(After(w, es).svc, id, h)
    decreases |es|
  {
    if es != [] {
      StepKeepsMapped(w, es[0], id, h);
      StepKeepsInv(w, es[0]);
      RunKeepsMapped(Next(w, es[0]), es[1..], id, h);
      if HasInvoice(w.svc, id, h) && id !in Accounts(Next(w, es[0])) {
        IdsOnlyGrow(w, es[0]);
        RemovedForGood(Next(w, es[0]), es[1..], id);
      }
    }
  }

  /** From installation, over every run of failures, restarts, removals and other
      invoices: an invoice that one account has and that has not settled yet is mapped to
      it as long as the service is enabled, and its settlement is received. */
  lemma UnsettledInvoiceIsReceived(w: World, es: seq<Event>, id: AccountID, inv: InvoiceEvent)
    requires Initial(w) && IsRun(w, es) && forall e :: e in es ==> !Diverts(e, id, inv.hash)
    requires After(w, es).svc.enabled && HasInvoice(After(w, es).svc, id, inv.hash)
    requires inv.settled && inv.amountPaid <= MAX_INT64
    ensures var s := After(w, es).svc;
            MappedTo(s, id, inv.hash) && Receives(s, StreamNext(s, InvoiceUpdate(inv, false, false)), id, inv)
  {
    InitialInv(w);
    RunKeepsMapped(w, es, id, inv.hash);
    MappedIsCredited(After(w, es).svc, inv, id);
  }

  /** So from the response to AddInvoice on, whatever runs before and after it, the
      invoice is received if its account still exists and the service runs. */
  lemma AddedInvoiceIsReceived(w: World, before: seq<Event>, id: AccountID, inv: InvoiceEvent, later: seq<Event>)
    requires Initial(w) && IsRun(w, before + later)
    requires forall e :: e in before + later ==> !Diverts(e, id, inv.hash)
    requires later != [] && later[0] == Message(AddInvoiceResponse(id, inv.hash, false))
    requires IsRun(w, before) && id in Accounts(After(w, before))
    requires After(w, before + later).svc.enabled && id in Accounts(After(w, before + later))
    requires inv.settled && inv.amountPaid <= MAX_INT64
    ensures var s := After(w, before + later).svc;
            MappedTo(s, id, inv.hash) && Receives(s, StreamNext(s, InvoiceUpdate(inv, false, false)), id, inv)
  {
    InitialInv(w);
    RunSplits(w, before, later);
    var w1 := After(w, before);
    RunKeepsInv(w, before);
    RunKeepsMapped(w, before, id, inv.hash);
    AssociatedIsMapped(w1.svc, id, inv.hash, false);
    StepKeepsInv(w1, later[0]);
    StepKeepsMapped(w1, later[0], id, inv.hash);
    RunKeepsMapped(Next(w1, later[0]), later[1..], id, inv.hash);
    UnsettledInvoiceIsReceived(w, before + later, id, inv);
  }
}
