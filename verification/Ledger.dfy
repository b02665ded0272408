/** What the protocol does to money: every balance is accounted for, and no account
    spends more than it has. */
module Ledger {
  import opened AccountTypes
  import opened AccountStore
  import opened PaymentTotals
  import opened ServiceSpec
  import opened Protocol
  import opened Finality

  // ---- Exact results of the calls that write a payment entry ----

  lemma RemovePaymentResult(s: Service, h: Hash, status: Status)
    requires PendingSound(s) && h in s.pending
    ensures var id := s.pending[h].account;
            var a := s.store.accounts[id];
            RemovePayment(s, h, status, false).svc.store.accounts ==
              s.store.accounts[id := a.(payments := a.payments[h := a.payments[h].(status := status)])]
  {
  }

  /** The accounts after a settlement, whether or not the write that ends tracking fails. */
  lemma SettleResult(s: Service, h: Hash, value: Msat, fee: Msat, removeFails: bool)
    requires PendingSound(s) && h in s.pending && s.enabled
    ensures var id := s.pending[h].account;
            var a := s.store.accounts[id];
            var full := ToUint64(value + fee);
            ServiceSpec.PaymentUpdate(s, h, SUCCEEDED, value, fee, false, removeFails).svc.store.accounts ==
              s.store.accounts[id := a.(payments := a.payments[h := PaymentEntry(SUCCEEDED, full)],
                                        balance := ToInt64(a.balance - full))]
  {
    assert AgreesOn(s, h);
    var id := s.pending[h].account;
    var a := s.store.accounts[id];
    var full := ToUint64(value + fee);
    var a1 := a.(payments := a.payments[h := PaymentEntry(SUCCEEDED, full)], balance := ToInt64(a.balance - full));
    var s1 := s.(store := Replace(s.store, id, a1));
    assert UpsertPayment(s.store, id, h, full, SUCCEEDED, NO_OPTIONS.(debitAccount := true)) == Ok(s1.store);
    var a2 := a1.(payments := a1.payments[h := a1.payments[h].(status := SUCCEEDED)]);
    assert a2 == a1;
    if !removeFails {
      assert RemovePayment(s1, h, SUCCEEDED, false).svc.store.accounts == s1.store.accounts[id := a2];
    }
  }

  lemma TrackResult(s: Service, id: AccountID, h: Hash, amount: Msat, f: TrackFaults)
    ensures var s' := TrackPayment(s, id, h, amount, f).svc;
            s'.store.accounts == s.store.accounts ||
            (&& id in s.store.accounts && !IsSettled(s, id, h)
             && var a := s.store.accounts[id];
                var full := if amount == 0 && h in a.payments then a.payments[h].fullAmount else amount;
                s'.store.accounts == s.store.accounts[id := a.(payments := a.payments[h := PaymentEntry(UNKNOWN, full)])])
  {
  }

  // ---- Conservation ----

  /** An invoice event is credited: its account exists and both store writes succeed. */
  ghost predicate CreditsInvoice(s: Service, inv: InvoiceEvent, indexFails: bool, creditFails: bool) {
    && s.enabled
    && CreditTarget(s, inv).Some? && CreditTarget(s, inv).value in s.store.accounts
    && (Advance(s.current, inv) == s.current || !indexFails)
    && !creditFails && inv.amountPaid <= MAX_INT64
  }

  lemma InvoiceResult(s: Service, inv: InvoiceEvent, indexFails: bool, creditFails: bool)
    ensures var m := ServiceSpec.InvoiceUpdate(s, inv, indexFails, creditFails).svc.store.accounts;
            if CreditsInvoice(s, inv, indexFails, creditFails) then
              var id := CreditTarget(s, inv).value;
              var a := s.store.accounts[id];
              m == s.store.accounts[id := a.(balance := ToInt64(a.balance + inv.amountPaid))]
            else m == s.store.accounts
  {
    var r := RecordIndexes(s, inv, indexFails);
    assert r.svc.store.accounts == s.store.accounts;
    assert CreditTarget(r.svc, inv) == CreditTarget(s, inv);
  }

  /** What an event credits to an account from outside. */
  ghost function Credited(w: World, e: Event, id: AccountID): Msat {
    if !(w.svc.enabled && id in Accounts(w)) then 0
    else
      match e
      case Admin(CreditAccount(i, amount, fails)) =>
        if i == id && !fails && amount <= MAX_INT64 then amount else 0
      case Stream(InvoiceUpdate(inv, indexFails, creditFails)) =>
        if CreditTarget(w.svc, inv) == Some(id) && CreditsInvoice(w.svc, inv, indexFails, creditFails)
        then inv.amountPaid else 0
      case _ => 0
  }

  /** What an event debits from an account by hand. */
  ghost function Debited(w: World, e: Event, id: AccountID): Msat {
    match e
    case Admin(DebitAccount(i, amount, fails)) =>
      if i == id && w.svc.enabled && id in Accounts(w) && !fails && amount <= MAX_INT64 &&
         ToInt64(Accounts(w)[id].balance - amount) >= 0
      then amount else 0
    case _ => 0
  }

  /** What an event posts to an account from outside. */
  ghost function Delta(w: World, e: Event, id: AccountID): int {
    Credited(w, e, id) - Debited(w, e, id)
  }

  ghost predicate Overrides(e: Event, id: AccountID) {
    e.Admin? && e.admin.UpdateAccount? && e.admin.id == id && e.admin.newBalance.Some?
  }

  /** The entries that were settled and are so no longer. */
  ghost function Lost(m: Payments, m': Payments): Payments {
    map h | h in m && SuccessState(m[h].status) && !(h in m' && SuccessState(m'[h].status)) :: m[h]
  }

  /** The amount that was debited for payments which are settled no longer. */
  ghost function Forgotten(a: Account, a': Account): int {
    Total(Lost(a.payments, a'.payments), SettledWeight)
  }

  /** From a to a' the balance moved by delta, less what newly settled. */
  ghost predicate Posts(a: Account, a': Account, delta: int) {
    && a'.initialBalance == a.initialBalance
    && a'.balance == ToInt64(a.balance + delta - (Settled(a') - Settled(a)) - Forgotten(a, a'))
  }

  lemma NothingForgotten(a: Account, a': Account)
    requires forall h :: h in a.payments && SuccessState(a.payments[h].status) ==>
               h in a'.payments && SuccessState(a'.payments[h].status)
    ensures Forgotten(a, a') == 0
  {
    assert Lost(a.payments, a'.payments) == map[];
  }

  /** Taking one entry off both sides. */
  lemma LostWithout(m: Payments, m': Payments, k: Hash)
    requires m.Keys == m'.Keys && k in m
    ensures Total(Lost(m, m'), SettledWeight) ==
            Total(Lost(m - {k}, m' - {k}), SettledWeight) +
            (if SuccessState(m[k].status) && !SuccessState(m'[k].status) then SettledWeight(m[k]) else 0)
  {
    var l := Lost(m, m');
    assert Lost(m - {k}, m' - {k}) == l - {k};
    if k in l {
      TotalPick(l, SettledWeight, k);
    } else {
      assert l - {k} == l;
    }
  }

  lemma {:induction false} TotalLost(m: Payments, m': Payments)
    requires m.Keys == m'.Keys
    requires forall h :: h in m ==> SettledWeight(m'[h]) == SettledWeight(m[h]) ||
                                    (SuccessState(m[h].status) && !SuccessState(m'[h].status))
    ensures Total(m', SettledWeight) + Total(Lost(m, m'), SettledWeight) == Total(m, SettledWeight)
    decreases |m|
  {
    if m.Keys != {} {
      var k :| k in m.Keys;
      TotalPick(m, SettledWeight, k);
      TotalPick(m', SettledWeight, k);
      TotalLost(m - {k}, m' - {k});
      LostWithout(m, m', k);
    } else {
      assert m == map[] && m' == map[] && Lost(m, m') == map[];
    }
  }

  lemma PostsNothing(a: Account)
    ensures Posts(a, a, 0)
  {
    NothingForgotten(a, a);
  }

  /** Entries that are relabelled, with no new settlement and no change of balance. */
  lemma PostsRelabelled(a: Account, p: Payments)
    requires p.Keys == a.payments.Keys
    requires forall h :: h in p ==> SettledWeight(p[h]) == SettledWeight(a.payments[h]) ||
                                    (SuccessState(a.payments[h].status) && !SuccessState(p[h].status))
    ensures Posts(a, a.(payments := p), 0)
  {
    TotalLost(a.payments, p);
  }

  /** An entry that was not settled and is not settled now posts nothing. */
  lemma PostsUnsettledEntry(a: Account, h: Hash, e: PaymentEntry)
    requires EntryOf(a, h).Some? ==> !SuccessState(EntryOf(a, h).value.status)
    requires !SuccessState(e.status)
    ensures Posts(a, a.(payments := a.payments[h := e]), 0)
    ensures Posts(a, a.(payments := a.payments - {h}), 0)
  {
    TotalUpdate(a.payments, SettledWeight, h, e);
    TotalRemove(a.payments, SettledWeight, h);
    NothingForgotten(a, a.(payments := a.payments[h := e]));
    NothingForgotten(a, a.(payments := a.payments - {h}));
  }

  /** A payment in flight that settles posts its debit. */
  lemma PostsSettled(a: Account, h: Hash, full: Msat)
    requires h in a.payments && InflightState(a.payments[h].status)
    ensures Posts(a, a.(payments := a.payments[h := PaymentEntry(SUCCEEDED, full)], balance := ToInt64(a.balance - full)), 0)
  {
    var a' := a.(payments := a.payments[h := PaymentEntry(SUCCEEDED, full)], balance := ToInt64(a.balance - full));
    TotalUpdate(a.payments, SettledWeight, h, PaymentEntry(SUCCEEDED, full));
    NothingForgotten(a, a');
  }

  lemma PostsStream(w: World, e: StreamEvent, id: AccountID)
    requires Inv(w) && id in Accounts(w)
    ensures var m := StreamNext(w.svc, e).store.accounts;
            id in m && Posts(Accounts(w)[id], m[id], Credited(w, Stream(e), id))
  {
    var s, a := w.svc, Accounts(w)[id];
    PostsNothing(a);
    match e
    case InvoiceUpdate(inv, indexFails, creditFails) => PostsInvoice(w, inv, indexFails, creditFails, id);
    case PaymentUpdate(h, status, value, fee, debitFails, removeFails) =>
      PostsPaymentUpdate(s, h, status, value, fee, debitFails, removeFails, id);
    case NotInitiated(h, fails) => PostsRemoval(s, h, fails, id);
    case StreamError =>
  }

  lemma PostsInvoice(w: World, inv: InvoiceEvent, indexFails: bool, creditFails: bool, id: AccountID)
    requires id in Accounts(w)
    ensures var m := ServiceSpec.InvoiceUpdate(w.svc, inv, indexFails, creditFails).svc.store.accounts;
            id in m && Posts(Accounts(w)[id], m[id], Credited(w, Stream(InvoiceUpdate(inv, indexFails, creditFails)), id))
  {
    PostsNothing(Accounts(w)[id]);
    InvoiceResult(w.svc, inv, indexFails, creditFails);
    PostsBalance(Accounts(w)[id], inv.amountPaid);
  }

  /** A tracked payment that is released as FAILED, perhaps a settled one. */
  lemma PostsRemoval(s: Service, h: Hash, fails: bool, id: AccountID)
    requires PendingSound(s) && id in s.store.accounts
    ensures var m := RemovePayment(s, h, FAILED, fails).svc.store.accounts;
            id in m && Posts(s.store.accounts[id], m[id], 0)
  {
    var a := s.store.accounts[id];
    PostsNothing(a);
    if h in s.pending && !fails {
      RemovePaymentResult(s, h, FAILED);
      if s.pending[h].account == id {
        assert OnRecord(s, id, h);
        PostsRelabelled(a, a.payments[h := a.payments[h].(status := FAILED)]);
      }
    }
  }

  lemma PostsPaymentUpdate(s: Service, h: Hash, status: Status, value: Msat, fee: Msat,
                           debitFails: bool, removeFails: bool, id: AccountID)
    requires PendingSound(s) && id in s.store.accounts
    ensures var m := ServiceSpec.PaymentUpdate(s, h, status, value, fee, debitFails, removeFails).svc.store.accounts;
            id in m && Posts(s.store.accounts[id], m[id], 0)
  {
    var a := s.store.accounts[id];
    PostsNothing(a);
    if InflightState(status) || !s.enabled || h !in s.pending {
    } else if status == FAILED {
      PostsRemoval(s, h, removeFails, id);
    } else if !debitFails {
      SettleResult(s, h, value, fee, removeFails);
      if s.pending[h].account == id {
        assert AgreesOn(s, h);
        PostsSettled(a, h, ToUint64(value + fee));
      }
    }
  }

  lemma PostsDrop(w: World, e: AdminEvent, id: AccountID)
    requires AdminEnabled(w, e) && e.RemoveAccount?
    requires id in Accounts(w) && id in AdminNext(w.svc, e).store.accounts
    ensures Posts(Accounts(w)[id], AdminNext(w.svc, e).store.accounts[id], 0)
  {
    var a := Accounts(w)[id];
    PostsNothing(a);
    if e.id == id {
      PostsRelabelled(a, FailAll(a.payments, e.dropped));
    }
  }

  lemma PostsAdmin(w: World, e: AdminEvent, id: AccountID)
    requires Inv(w) && AdminEnabled(w, e) && !Overrides(Admin(e), id) && id in Accounts(w)
    requires id in AdminNext(w.svc, e).store.accounts
    ensures Posts(Accounts(w)[id], AdminNext(w.svc, e).store.accounts[id],
                  Credited(w, Admin(e), id) - Debited(w, Admin(e), id))
  {
    if e.RemoveAccount? {
      PostsDrop(w, e, id);
    } else if e.CreditAccount? {
      PostsCredit(w, e.id, e.amount, e.fails, id);
    } else if e.DebitAccount? {
      PostsDebit(w, e.id, e.amount, e.fails, id);
    } else {
      PostsOthers(w, e, id);
    }
  }

  lemma PostsCredit(w: World, i: AccountID, amount: Msat, fails: bool, id: AccountID)
    requires id in Accounts(w)
    ensures var e := CreditAccount(i, amount, fails);
            var m := AdminNext(w.svc, e).store.accounts;
            id in m && Posts(Accounts(w)[id], m[id], Credited(w, Admin(e), id))
  {
    var a := Accounts(w)[id];
    var m := AdminNext(w.svc, CreditAccount(i, amount, fails)).store.accounts;
    PostsNothing(a);
    PostsBalance(a, amount);
    assert m[id] == a || (i == id && m[id] == a.(balance := ToInt64(a.balance + amount)));
  }

  lemma PostsDebit(w: World, i: AccountID, amount: Msat, fails: bool, id: AccountID)
    requires id in Accounts(w)
    ensures var e := DebitAccount(i, amount, fails);
            var m := AdminNext(w.svc, e).store.accounts;
            id in m && Posts(Accounts(w)[id], m[id], 0 - Debited(w, Admin(e), id))
  {
    var a := Accounts(w)[id];
    var m := AdminNext(w.svc, DebitAccount(i, amount, fails)).store.accounts;
    PostsNothing(a);
    PostsBalance(a, 0 - amount);
    assert m[id] == a || (i == id && m[id] == a.(balance := ToInt64(a.balance - amount)));
  }

  /** A balance that moves while no payment does. */
  lemma PostsBalance(a: Account, delta: int)
    ensures Posts(a, a.(balance := ToInt64(a.balance + delta)), delta)
  {
    NothingForgotten(a, a.(balance := ToInt64(a.balance + delta)));
  }

  lemma PostsOthers(w: World, e: AdminEvent, id: AccountID)
    requires Inv(w) && AdminEnabled(w, e) && !Overrides(Admin(e), id) && id in Accounts(w)
    requires e.NewAccount? || e.UpdateAccount?
    ensures id in AdminNext(w.svc, e).store.accounts
    ensures Posts(Accounts(w)[id], AdminNext(w.svc, e).store.accounts[id], 0)
  {
    PostsNothing(Accounts(w)[id]);
    NothingForgotten(Accounts(w)[id], AdminNext(w.svc, e).store.accounts[id]);
  }

  /** The error handler deletes an entry in flight. */
  lemma PostsError(w: World, e: MessageEvent, id: AccountID)
    requires Inv(w) && MessageEnabled(w, e) && e.SendError? && id in Accounts(w)
    ensures var m := Accounts(MessageNext(w, e)); id in m && Posts(Accounts(w)[id], m[id], 0)
  {
    var s, a := w.svc, Accounts(w)[id];
    var i, h := w.owners[e.req], s.requests[e.req].hash;
    PostsNothing(a);
    assert Waiting(w, e.req) && Open(s, i, h);
    if i == id {
      PostsUnsettledEntry(a, h, PaymentEntry(FAILED, 0));
    }
  }

  lemma PostsReserve(w: World, fails: bool, id: AccountID)
    requires MessageEnabled(w, SendAssociate(fails)) && id in Accounts(w)
    ensures var m := Accounts(MessageNext(w, SendAssociate(fails))); id in m && Posts(Accounts(w)[id], m[id], 0)
  {
    var c := w.phase.handler;
    PostsNothing(Accounts(w)[id]);
    AssociateEffect(w.svc, c.id, c.hash, c.amount, fails);
    if c.id == id {
      PostsAssociate(w.svc, id, c.hash, c.amount, fails);
    }
  }

  /** Handler steps that write no payment. */
  lemma PostsElse(w: World, e: MessageEvent, id: AccountID)
    requires MessageEnabled(w, e) && id in Accounts(w)
    requires !e.SendAssociate? && !e.SendResponse? && !e.SendError? && !e.HandlerRemoves?
    ensures var m := Accounts(MessageNext(w, e)); id in m && Posts(Accounts(w)[id], m[id], 0)
  {
    var a, m := Accounts(w)[id], Accounts(MessageNext(w, e));
    PostsNothing(a);
    NothingForgotten(a, m[id]);
    assert m[id].payments == a.payments && m[id].balance == a.balance;
  }

  lemma PostsMessage(w: World, e: MessageEvent, id: AccountID)
    requires Inv(w) && MessageEnabled(w, e) && id in Accounts(w)
    ensures var m := Accounts(MessageNext(w, e)); id in m && Posts(Accounts(w)[id], m[id], 0)
  {
    if e.SendAssociate? {
      PostsReserve(w, e.fails, id);
    } else if e.SendResponse? {
      PostsTrack(w.svc, w.owners[e.req], w.svc.requests[e.req].hash, e.amount, e.faults, id);
    } else if e.SendError? {
      PostsError(w, e, id);
    } else if e.HandlerRemoves? {
      PostsRemoval(w.svc, w.phase.handler.hash, e.fails, id);
    } else {
      PostsElse(w, e, id);
    }
  }

  lemma PostsAssociate(s: Service, id: AccountID, h: Hash, amount: Msat, fails: bool)
    requires id in s.store.accounts
    ensures var m := AssociatePayment(s, id, h, amount, fails).svc.store.accounts;
            id in m && Posts(s.store.accounts[id], m[id], 0)
  {
    var a := s.store.accounts[id];
    PostsNothing(a);
    AssociateEffect(s, id, h, amount, fails);
    if AssociatePayment(s, id, h, amount, fails).error.None? {
      PostsUnsettledEntry(a, h, PaymentEntry(UNKNOWN, amount));
    }
  }

  lemma PostsTrack(s: Service, i: AccountID, h: Hash, amount: Msat, f: TrackFaults, id: AccountID)
    requires id in s.store.accounts
    ensures var m := TrackPayment(s, i, h, amount, f).svc.store.accounts;
            id in m && Posts(s.store.accounts[id], m[id], 0)
  {
    var a := s.store.accounts[id];
    PostsNothing(a);
    TrackResult(s, i, h, amount, f);
    if i == id && !IsSettled(s, id, h) {
      var full := if amount == 0 && h in a.payments then a.payments[h].fullAmount else amount;
      PostsUnsettledEntry(a, h, PaymentEntry(UNKNOWN, full));
    }
  }

  /** One step moves a balance by its credits and debits and by what it settles. */
  lemma StepPosts(w: World, e: Event, id: AccountID)
    requires Inv(w) && Enabled(w, e) && !Overrides(e, id)
    requires id in Accounts(w) && id in Accounts(Next(w, e))
    ensures Posts(Accounts(w)[id], Accounts(Next(w, e))[id], Delta(w, e, id))
  {
    if e.Admin? {
      PostsAdmin(w, e.admin, id);
    } else if e.Stream? {
      PostsStream(w, e.stream, id);
      assert Debited(w, e, id) == 0;
    } else {
      assert Delta(w, e, id) == 0;
      PostsQuiet(w, e, id);
    }
  }

  /** Messages and steps of life post nothing from outside. */
  lemma PostsQuiet(w: World, e: Event, id: AccountID)
    requires Inv(w) && Enabled(w, e) && (e.Message? || e.Life?) && id in Accounts(w)
    ensures id in Accounts(Next(w, e)) && Posts(Accounts(w)[id], Accounts(Next(w, e))[id], 0)
  {
    if e.Message? {
      PostsMessage(w, e.message, id);
    } else {
      PostsLife(w, e.life, id);
    }
  }

  lemma PostsLife(w: World, l: LifeEvent, id: AccountID)
    requires LifeEnabled(w, l) && id in Accounts(w)
    ensures var m := Accounts(LifeNext(w, l)); id in m && Posts(Accounts(w)[id], m[id], 0)
  {
    PostsNothing(Accounts(w)[id]);
    if l.StartTrack? {
      PostsTrack(w.svc, l.id, l.hash, w.phase.todo[(l.id, l.hash)], l.faults, id);
    }
  }

  /** Credits minus hand-made debits of an account over a run. */
  ghost function Net(w: World, es: seq<Event>, id: AccountID): int
    requires IsRun(w, es)
    decreases |es|
  {
    if es == [] then 0
    else Delta(w, es[0], id) + Net(Next(w, es[0]), es[1..], id)
  }

  /** What an event makes the account forget. */
  ghost function ForgottenAt(w: World, e: Event, id: AccountID): int
    requires Enabled(w, e)
  {
    if id in Accounts(w) && id in Accounts(Next(w, e)) then Forgotten(Accounts(w)[id], Accounts(Next(w, e))[id]) else 0
  }

  /** The amounts of payments that were settled once and became FAILED later, over a run. */
  ghost function ForgottenIn(w: World, es: seq<Event>, id: AccountID): int
    requires IsRun(w, es)
    decreases |es|
  {
    if es == [] then 0
    else ForgottenAt(w, es[0], id) + ForgottenIn(Next(w, es[0]), es[1..], id)
  }

  ghost predicate Balanced(a: Account, net: int) {
    a.balance == ToInt64(a.initialBalance + net - Settled(a))
  }

  lemma PostingKeepsBalanced(a: Account, a': Account, net: int, delta: int, net': int)
    requires Balanced(a, net) && Posts(a, a', delta) && net' == net + delta - Forgotten(a, a')
    ensures Balanced(a', net')
  {
    WrapAbsorbs(a.initialBalance + net - Settled(a), delta - (Settled(a') - Settled(a)) - Forgotten(a, a'));
  }

  /** An account is balanced; one that does not exist has nothing posted. */
  ghost predicate OnBooks(w: World, id: AccountID, net: int) {
    if id in Accounts(w) then Balanced(Accounts(w)[id], net) else net == 0
  }

  /** Everything that moves the balance of an account against its settled payments. */
  ghost function Moved(w: World, es: seq<Event>, id: AccountID): int
    requires IsRun(w, es)
    decreases |es|
  {
    if es == [] then 0 else MovedAt(w, es[0], id) + Moved(Next(w, es[0]), es[1..], id)
  }

  ghost function MovedAt(w: World, e: Event, id: AccountID): int
    requires Enabled(w, e)
  {
    Delta(w, e, id) - ForgottenAt(w, e, id)
  }

  lemma {:induction false} MovedIs(w: World, es: seq<Event>, id: AccountID)
    requires IsRun(w, es)
    ensures Moved(w, es, id) == Net(w, es, id) - ForgottenIn(w, es, id)
    decreases |es|
  {
    if es != [] {
      MovedIs(Next(w, es[0]), es[1..], id);
    }
  }

  lemma MovedUnfolds(w: World, e: Event, id: AccountID)
    requires Enabled(w, e)
    ensures id in Accounts(w) && id in Accounts(Next(w, e)) ==>
              MovedAt(w, e, id) == Delta(w, e, id) - Forgotten(Accounts(w)[id], Accounts(Next(w, e))[id])
    ensures id !in Accounts(w) ==> MovedAt(w, e, id) == Delta(w, e, id)
  {
  }

  lemma StepKeepsBalanced(w: World, e: Event, id: AccountID, net: int, net': int)
    requires Inv(w) && Enabled(w, e) && !Overrides(e, id)
    requires OnBooks(w, id, net) && net' == net + MovedAt(w, e, id)
    ensures (id in Accounts(w) && id !in Accounts(Next(w, e))) || OnBooks(Next(w, e), id, net')
  {
    MovedUnfolds(w, e, id);
    if id !in Accounts(w) {
      StartsBalanced(w, e, id);
      assert net' == 0;
    } else if id in Accounts(Next(w, e)) {
      StepPosts(w, e, id);
      PostingKeepsBalanced(Accounts(w)[id], Accounts(Next(w, e))[id], net, Delta(w, e, id), net');
    }
  }

  lemma RunUnfolds(w: World, es: seq<Event>, id: AccountID, net: int, net': int)
    requires IsRun(w, es) && es != [] && net' == net + MovedAt(w, es[0], id)
    ensures After(w, es) == After(Next(w, es[0]), es[1..])
    ensures net' + Moved(Next(w, es[0]), es[1..], id) == net + Moved(w, es, id)
  {
  }

  lemma {:induction false} RunKeepsBalanced(w: World, es: seq<Event>, id: AccountID, net: int, total: int)
    requires Inv(w) && IsRun(w, es) && OnBooks(w, id, net) && total == net + Moved(w, es, id)
    requires forall e :: e in es ==> !Overrides(e, id)
    ensures id in Accounts(After(w, es)) ==> OnBooks(After(w, es), id, total)
    decreases |es|
  {
    if es != [] {
      var e := es[0];
      var w1, net' := Next(w, e), net + MovedAt(w, e, id);
      StepKeepsInv(w, e);
      StepKeepsBalanced(w, e, id, net, net');
      RunUnfolds(w, es, id, net, net');
      if id in Accounts(w) && id !in Accounts(w1) {
        IdsOnlyGrow(w, e);
        RemovedForGood(w1, es[1..], id);
      } else {
        RunKeepsBalanced(w1, es[1..], id, net', total);
      }
    }
  }

  lemma StartsBalanced(w: World, e: Event, id: AccountID)
    requires Enabled(w, e) && id !in Accounts(w)
    ensures Credited(w, e, id) == 0 && Debited(w, e, id) == 0
    ensures id in Accounts(Next(w, e)) ==> Balanced(Accounts(Next(w, e))[id], 0)
  {
    match e
    case Admin(a) => AdminAddsOnlyNew(w.svc, a);
    case Stream(m) => StreamKeepsKeys(w.svc, m);
    case Message(m) => MessageKeepsKeys(w, m);
    case Life(l) => LifeKeepsKeys(w, l);
  }

  /** The write that ends the tracking of one of the account's payments fails after the
      payment was debited. */
  ghost predicate LosesFor(w: World, e: Event, id: AccountID) {
    exists h :: LosesRemoval(e, h) && TrackedFor(w.svc, id, h)
  }

  ghost predicate NoneLostFor(w: World, es: seq<Event>, id: AccountID)
    requires IsRun(w, es)
    decreases |es|
  {
    es == [] || (!LosesFor(w, es[0], id) && NoneLostFor(Next(w, es[0]), es[1..], id))
  }

  /** Every tracked payment of the account is in flight. */
  ghost predicate Clean(s: Service, id: AccountID) {
    forall h :: TrackedFor(s, id, h) ==> IsInFlight(s, id, h)
  }

  lemma StepKeepsClean(w: World, e: Event, id: AccountID)
    requires Inv(w) && Enabled(w, e) && Clean(w.svc, id) && !LosesFor(w, e, id)
    ensures Clean(Next(w, e).svc, id) && ForgottenAt(w, e, id) == 0
  {
    StepKeepsInv(w, e);
    var s, s' := w.svc, Next(w, e).svc;
    forall h | TrackedFor(s', id, h) ensures IsInFlight(s', id, h) {
      assert SameOwner(s, s', h);
      assert !(LosesRemoval(e, h) && h in s.pending);
      assert AgreesOn(s, h) && KeepsTracking(s, s', h);
    }
    if id in Accounts(w) && id in Accounts(Next(w, e)) {
      forall h | h in Accounts(w)[id].payments && SuccessState(Accounts(w)[id].payments[h].status)
        ensures h in Accounts(Next(w, e))[id].payments && SuccessState(Accounts(Next(w, e))[id].payments[h].status)
      {
        assert IsSettled(s, id, h) && !TrackedFor(s, id, h);
      }
      NothingForgotten(Accounts(w)[id], Accounts(Next(w, e))[id]);
    }
  }

  /** An account none of whose removals is lost forgets nothing. */
  lemma {:induction false} NoneLostForgetsNothing(w: World, es: seq<Event>, id: AccountID)
    requires Inv(w) && IsRun(w, es) && Clean(w.svc, id) && NoneLostFor(w, es, id)
    ensures ForgottenIn(w, es, id) == 0
    decreases |es|
  {
    if es != [] {
      StepKeepsInv(w, es[0]);
      StepKeepsClean(w, es[0], id);
      NoneLostForgetsNothing(Next(w, es[0]), es[1..], id);
    }
  }

  /** What the balance of an account should be: its initial balance plus all credits minus
      all debits by hand minus the amounts of its SUCCEEDED payments. */
  ghost function Expected(w: World, es: seq<Event>, id: AccountID): int
    requires IsRun(w, es) && id in Accounts(After(w, es))
  {
    var a := Accounts(After(w, es))[id];
    a.initialBalance + Net(w, es, id) - Settled(a)
  }

  lemma RunOnBooks(w: World, es: seq<Event>, id: AccountID)
    requires Initial(w) && IsRun(w, es) && forall e :: e in es ==> !Overrides(e, id)
    requires id in Accounts(After(w, es))
    ensures Balanced(Accounts(After(w, es))[id], Net(w, es, id) - ForgottenIn(w, es, id))
  {
    InitialInv(w);
    MovedIs(w, es, id);
    RunKeepsBalanced(w, es, id, 0, Net(w, es, id) - ForgottenIn(w, es, id));
  }

  lemma CleanFromTheStart(w: World, es: seq<Event>, id: AccountID)
    requires Initial(w) && IsRun(w, es) && NoneLostFor(w, es, id)
    ensures ForgottenIn(w, es, id) == 0
  {
    InitialInv(w);
    NoneLostForgetsNothing(w, es, id);
  }

  /** Ledger conservation, over every run with any failures: the balance of an account
      whose balance was never overridden is what it should be, less the amounts of
      payments that were settled and became FAILED later. It is what it should be if and
      only if these amounts vanish in 64-bit arithmetic, and they do when no removal of
      one of the account's own payments is lost. */
  lemma Conservation(w: World, es: seq<Event>, id: AccountID)
    requires Initial(w) && IsRun(w, es)
    requires forall e :: e in es ==> !Overrides(e, id)
    requires id in Accounts(After(w, es))
    ensures var balance := Accounts(After(w, es))[id].balance;
            var total := Expected(w, es, id) - ForgottenIn(w, es, id);
            && balance == ToInt64(total) && (-TWO_63 <= total < TWO_63 ==> balance == total)
            && (balance == ToInt64(Expected(w, es, id)) <==> ForgottenIn(w, es, id) % TWO_64 == 0)
            && (NoneLostFor(w, es, id) ==> ForgottenIn(w, es, id) == 0)
  {
    RunOnBooks(w, es, id);
    BooksMean(Accounts(After(w, es))[id], Net(w, es, id), ForgottenIn(w, es, id), Expected(w, es, id));
    if NoneLostFor(w, es, id) {
      CleanFromTheStart(w, es, id);
    }
  }

  lemma BooksMean(a: Account, net: int, forgotten: int, expected: int)
    requires Balanced(a, net - forgotten) && expected == a.initialBalance + net - Settled(a)
    ensures a.balance == ToInt64(expected - forgotten)
    ensures -TWO_63 <= expected - forgotten < TWO_63 ==> a.balance == expected - forgotten
    ensures a.balance == ToInt64(expected) <==> forgotten % TWO_64 == 0
  {
    assert a.initialBalance + (net - forgotten) - Settled(a) == expected - forgotten;
    WrapSameIff(expected, forgotten);
  }

  /** Taking off an amount is not noticed exactly when it is a multiple of 2^64. */
  lemma WrapSameIff(x: int, y: int)
    ensures ToInt64(x - y) == ToInt64(x) <==> y % TWO_64 == 0
  {
    WrapDiffersByMultiple(x);
    WrapDiffersByMultiple(x - y);
    var k, m := (x + TWO_63) / TWO_64, (x - y + TWO_63) / TWO_64;
    if y % TWO_64 == 0 {
      WrapPeriodic(x, -(y / TWO_64));
    }
    if ToInt64(x - y) == ToInt64(x) {
      assert y == (k - m) * TWO_64;
    }
  }

  // ---- No overdraft ----

  /** What the account could still spend, in exact arithmetic. */
  ghost function Slack(a: Account): int {
    a.balance - InFlight(a)
  }

  /** What is in flight is covered by the balance, in every account. */
  ghost predicate Covered(w: World) {
    forall id :: id in Accounts(w) ==> Slack(Accounts(w)[id]) >= 0
  }

  /** Every account is covered, and so is the amount that was checked and not yet
      reserved, if it is one that the check can see. */
  ghost predicate Solvent(w: World) {
    && Covered(w)
    && (w.phase.Serving? && w.phase.handler.Checked? && w.phase.handler.id in Accounts(w) &&
        w.phase.handler.amount <= MAX_INT64 ==>
          Slack(Accounts(w)[w.phase.handler.id]) >= w.phase.handler.amount)
  }

  /** No debit by hand, balance override or restart; lnd tracks and settles at most the
      amount on record, and balances stay within 64 bits. */
  ghost predicate Benign(w: World, e: Event) {
    match e
    case Admin(NewAccount(_, balance, _, _)) => balance <= MAX_INT64
    case Admin(CreditAccount(id, amount, _)) => CreditFits(w, id, amount)
    case Admin(DebitAccount(_, _, _)) => false
    case Admin(UpdateAccount(_, newBalance, _, _)) => newBalance.None?
    case Admin(RemoveAccount(_, _, _)) => true
    case Stream(InvoiceUpdate(inv, _, _)) =>
      var t := CreditTarget(w.svc, inv);
      t.Some? ==> CreditFits(w, t.value, inv.amountPaid)
    case Stream(PaymentUpdate(h, status, value, fee, _, _)) =>
      status == SUCCEEDED && h in w.svc.pending ==> AtMostRecorded(w, w.svc.pending[h].account, h, ToUint64(value + fee))
    case Stream(_) => true
    case Message(SendResponse(req, amount, _)) =>
      req in w.svc.requests && req in w.owners ==> AtMostRecorded(w, w.owners[req], w.svc.requests[req].hash, amount)
    case Message(_) => true
    case Life(l) => l.StartSubscribe?
  }

  /** An amount that is reserved fits a signed word. */
  ghost predicate Bounded(w: World, e: Event) {
    match e
    case Message(SendAssociate(fails)) =>
      w.phase.Serving? && w.phase.handler.Checked? ==>
        var c := w.phase.handler;
        AssociatePayment(w.svc, c.id, c.hash, c.amount, fails).error.None? ==> c.amount <= MAX_INT64
    case _ => true
  }

  ghost predicate CreditFits(w: World, id: AccountID, amount: Msat) {
    id in Accounts(w) && amount <= MAX_INT64 ==> Accounts(w)[id].balance + amount <= MAX_INT64
  }

  ghost predicate AtMostRecorded(w: World, id: AccountID, h: Hash, amount: Msat) {
    Known(w.svc, id, h) ==> amount <= Accounts(w)[id].payments[h].fullAmount
  }

  /** No account can spend less than before. */
  ghost predicate KeepsSlack(m: map<AccountID, Account>, m': map<AccountID, Account>) {
    forall id :: id in m' ==>
      if id in m then Slack(m'[id]) >= Slack(m[id]) else Slack(m'[id]) >= 0
  }

  lemma SlackOfWrite(a: Account, h: Hash, e: PaymentEntry)
    ensures Slack(a.(payments := a.payments[h := e])) == Slack(a) + WeightAt(a.payments, InFlightWeight, h) - InFlightWeight(e)
  {
    TotalUpdate(a.payments, InFlightWeight, h, e);
  }

  lemma SlackStream(w: World, e: StreamEvent)
    requires Inv(w) && Benign(w, Stream(e)) && Solvent(w)
    ensures KeepsSlack(Accounts(w), StreamNext(w.svc, e).store.accounts)
  {
    match e
    case InvoiceUpdate(inv, indexFails, creditFails) =>
      InvoiceResult(w.svc, inv, indexFails, creditFails);
      if CreditsInvoice(w.svc, inv, indexFails, creditFails) {
        SlackCredit(w, CreditTarget(w.svc, inv).value, inv.amountPaid);
      }
    case PaymentUpdate(h, status, value, fee, debitFails, removeFails) =>
      SlackPaymentUpdate(w, h, status, value, fee, debitFails, removeFails);
    case NotInitiated(h, fails) => SlackRemoval(w.svc, h, fails);
    case StreamError =>
  }

  lemma SlackRemoval(s: Service, h: Hash, fails: bool)
    requires PendingSound(s)
    ensures KeepsSlack(s.store.accounts, RemovePayment(s, h, FAILED, fails).svc.store.accounts)
  {
    if h in s.pending && !fails {
      RemovePaymentResult(s, h, FAILED);
      var a := s.store.accounts[s.pending[h].account];
      SlackOfWrite(a, h, a.payments[h].(status := FAILED));
    }
  }

  lemma SlackPaymentUpdate(w: World, h: Hash, status: Status, value: Msat, fee: Msat, debitFails: bool, removeFails: bool)
    requires Inv(w) && Solvent(w)
    requires Benign(w, Stream(PaymentUpdate(h, status, value, fee, debitFails, removeFails)))
    ensures KeepsSlack(Accounts(w), ServiceSpec.PaymentUpdate(w.svc, h, status, value, fee, debitFails, removeFails).svc.store.accounts)
  {
    var s := w.svc;
    if InflightState(status) || !s.enabled || h !in s.pending {
    } else if status == FAILED {
      SlackRemoval(s, h, removeFails);
    } else if !debitFails {
      SlackSettle(w, h, value, fee, removeFails);
    }
  }

  /** Settling at most the amount on record frees at least what it debits. */
  lemma SlackSettle(w: World, h: Hash, value: Msat, fee: Msat, removeFails: bool)
    requires Inv(w) && Solvent(w) && w.svc.enabled && h in w.svc.pending
    requires AtMostRecorded(w, w.svc.pending[h].account, h, ToUint64(value + fee))
    ensures KeepsSlack(Accounts(w), ServiceSpec.PaymentUpdate(w.svc, h, SUCCEEDED, value, fee, false, removeFails).svc.store.accounts)
  {
    SettleResult(w.svc, h, value, fee, removeFails);
    assert AgreesOn(w.svc, h);
    var a := Accounts(w)[w.svc.pending[h].account];
    SlackOfWrite(a, h, PaymentEntry(SUCCEEDED, ToUint64(value + fee)));
    TotalNonNegative(a.payments, InFlightWeight);
  }

  lemma SlackNewOrGone(w: World, e: AdminEvent)
    requires Accounts(w).Keys <= w.ids && AdminEnabled(w, e) && Benign(w, Admin(e)) && (e.NewAccount? || e.RemoveAccount?)
    ensures KeepsSlack(Accounts(w), AdminNext(w.svc, e).store.accounts)
  {
    if e.RemoveAccount? && e.id in Accounts(w) {
      SlackOfDrop(Accounts(w)[e.id], e.dropped);
    }
  }

  lemma SlackAdmin(w: World, e: AdminEvent)
    requires Inv(w) && AdminEnabled(w, e) && Benign(w, Admin(e)) && Solvent(w)
    ensures KeepsSlack(Accounts(w), AdminNext(w.svc, e).store.accounts)
  {
    if e.NewAccount? || e.RemoveAccount? {
      SlackNewOrGone(w, e);
    } else if e.CreditAccount? && e.id in Accounts(w) && e.amount <= MAX_INT64 {
      SlackCredit(w, e.id, e.amount);
    }
  }

  lemma SlackCredit(w: World, id: AccountID, amount: Msat)
    requires id in Accounts(w) && amount <= MAX_INT64 && CreditFits(w, id, amount) && Covered(w)
    ensures var a := Accounts(w)[id]; Slack(a.(balance := ToInt64(a.balance + amount))) >= Slack(a)
  {
    TotalNonNegative(Accounts(w)[id].payments, InFlightWeight);
  }

  /** The bound on credits is exact: a credit that the store accepts leaves a covered
      account covered if and only if the new balance fits. */
  lemma CreditCoveredIff(a: Account, amount: Msat)
    requires Slack(a) >= 0 && amount <= MAX_INT64
    ensures Slack(a.(balance := ToInt64(a.balance + amount))) >= 0 <==> a.balance + amount <= MAX_INT64
  {
    TotalNonNegative(a.payments, InFlightWeight);
  }

  lemma SlackOfDrop(a: Account, hs: set<Hash>)
    ensures Slack(a.(payments := FailAll(a.payments, hs))) >= Slack(a)
  {
    TotalMonotone(FailAll(a.payments, hs), a.payments, InFlightWeight);
  }

  /** Tracking at most the amount on record withholds no more than before. */
  lemma SlackResponse(w: World, e: MessageEvent)
    requires Inv(w) && MessageEnabled(w, e) && Benign(w, Message(e)) && e.SendResponse?
    ensures KeepsSlack(Accounts(w), Accounts(MessageNext(w, e)))
  {
    var id, h := w.owners[e.req], w.svc.requests[e.req].hash;
    assert Waiting(w, e.req) && Open(w.svc, id, h);
    TrackResult(w.svc, id, h, e.amount, e.faults);
    if id in Accounts(w) {
      var a := Accounts(w)[id];
      SlackOfWrite(a, h, PaymentEntry(UNKNOWN, if e.amount == 0 then a.payments[h].fullAmount else e.amount));
    }
  }

  /** A disassociated payment withholds nothing. */
  lemma SlackError(w: World, e: MessageEvent)
    requires Inv(w) && MessageEnabled(w, e) && e.SendError?
    ensures KeepsSlack(Accounts(w), Accounts(MessageNext(w, e)))
  {
    var id, h := w.owners[e.req], w.svc.requests[e.req].hash;
    if id in Accounts(w) {
      TotalRemove(Accounts(w)[id].payments, InFlightWeight, h);
    }
  }

  /** Handler steps that write no payment. */
  lemma SlackElse(w: World, e: MessageEvent)
    requires MessageEnabled(w, e) && !e.SendAssociate? && !e.SendResponse? && !e.SendError? && !e.HandlerRemoves?
    ensures KeepsSlack(Accounts(w), Accounts(MessageNext(w, e)))
  {
    assert forall id :: id in Accounts(w) ==> Accounts(MessageNext(w, e))[id].payments == Accounts(w)[id].payments;
  }

  lemma SlackMessage(w: World, e: MessageEvent)
    requires Inv(w) && MessageEnabled(w, e) && Benign(w, Message(e)) && !e.SendAssociate?
    ensures KeepsSlack(Accounts(w), Accounts(MessageNext(w, e)))
  {
    if e.SendResponse? {
      SlackResponse(w, e);
    } else if e.SendError? {
      SlackError(w, e);
    } else if e.HandlerRemoves? {
      SlackRemoval(w.svc, w.phase.handler.hash, e.fails);
    } else {
      SlackElse(w, e);
    }
  }

  /** The check reads the required amount as a signed word, so it lets an amount pass
      that is not covered if and only if the amount does not fit one. */
  lemma CheckMissesIff(st: Store, id: AccountID, amount: Msat, now: Int64)
    requires id in st.accounts && !HasExpired(st.accounts[id], now) && Slack(st.accounts[id]) >= 0
    ensures BalanceVerdict(st, id, amount, now).None? && Slack(st.accounts[id]) < amount <==> amount > MAX_INT64
  {
    var a := st.accounts[id];
    TotalNonNegative(a.payments, InFlightWeight);
    assert Available(a) == Slack(a);
    if amount > MAX_INT64 {
      assert ToInt64(amount) == amount - TWO_64;
    }
  }

  /** Exactly when the check passes for a covered account: it has not expired, and the
      amount is covered or cannot be seen. */
  lemma CheckPassesIff(st: Store, id: AccountID, amount: Msat, now: Int64)
    requires id in st.accounts ==> Slack(st.accounts[id]) >= 0
    ensures BalanceVerdict(st, id, amount, now).None? <==>
            && id in st.accounts
            && (st.accounts[id].expiry.Some? ==> now <= st.accounts[id].expiry.value)
            && (amount <= Slack(st.accounts[id]) || amount >= 0x8000_0000_0000_0000)
  {
    if id in st.accounts {
      var a := st.accounts[id];
      TotalNonNegative(a.payments, InFlightWeight);
      assert Available(a) == Slack(a);
      if amount > MAX_INT64 {
        assert ToInt64(amount) == amount - TWO_64;
      }
    }
  }

  /** The balance check leaves room for the amount whatever happens before it is reserved. */
  lemma CheckReserves(w: World, e: MessageEvent)
    requires Solvent(w) && MessageEnabled(w, e) && e.SendRequest?
    ensures Solvent(MessageNext(w, e))
  {
    assert BalanceVerdict(w.svc.store, e.id, e.amount, e.now).None?;
    assert e.id in w.svc.store.accounts && Slack(Accounts(w)[e.id]) >= 0;
    CheckMissesIff(w.svc.store, e.id, e.amount, e.now);
  }

  /** Reserving keeps every account covered if and only if the amount is refused or fits
      a signed word. */
  lemma ReservingCoveredIff(w: World, fails: bool)
    requires Inv(w) && Solvent(w) && MessageEnabled(w, SendAssociate(fails))
    ensures Covered(MessageNext(w, SendAssociate(fails))) <==> Bounded(w, Message(SendAssociate(fails)))
  {
    var c := w.phase.handler;
    AssociateEffect(w.svc, c.id, c.hash, c.amount, fails);
    var r := AssociatePayment(w.svc, c.id, c.hash, c.amount, fails);
    if r.error.None? {
      var a := Accounts(w)[c.id];
      SlackOfWrite(a, c.hash, PaymentEntry(UNKNOWN, c.amount));
      TotalNonNegative(a.payments, InFlightWeight);
      var m := r.svc.store.accounts;
      assert m == Accounts(w)[c.id := m[c.id]] && Slack(m[c.id]) == Slack(a) - c.amount;
      assert Accounts(MessageNext(w, SendAssociate(fails))) == m;
      if c.amount <= MAX_INT64 {
        assert Slack(a) >= c.amount;
      } else {
        assert Slack(a) <= MAX_INT64;
      }
    }
  }

  /** Such amounts do arrive: a negative one in a request is read as one above the signed
      maximum. From every covered state it passes the check of any account that has not
      expired, and reserving it leaves more in flight than the balance. */
  lemma LargeSendOverdraws(w: World, req: Uint64, id: AccountID, h: Hash, amount: Msat, now: Int64)
    requires Inv(w) && Solvent(w) && IsIdle(w) && amount > MAX_INT64
    requires id in Accounts(w) && !HasExpired(Accounts(w)[id], now) && h !in Accounts(w)[id].payments
    requires req in w.owners ==> w.owners[req] == id
    ensures var check := Message(SendRequest(req, id, h, amount, now));
            var reserve := Message(SendAssociate(false));
            && Enabled(w, check) && Enabled(Next(w, check), reserve)
            && var m := Accounts(Next(Next(w, check), reserve));
               id in m && InFlight(m[id]) > m[id].balance
  {
    CheckMissesIff(w.svc.store, id, amount, now);
    var w1 := Next(w, Message(SendRequest(req, id, h, amount, now)));
    var a := Accounts(w)[id];
    AssociateEffect(w1.svc, id, h, amount, false);
    assert AssociatePayment(w1.svc, id, h, amount, false).error.None?;
    SlackOfWrite(a, h, PaymentEntry(UNKNOWN, amount));
    TotalNonNegative(a.payments, InFlightWeight);
    var a' := Accounts(Next(w1, Message(SendAssociate(false))))[id];
    assert Slack(a') == Slack(a) - amount;
  }

  lemma KeptSlackKeepsSolvent(w: World, w': World)
    requires Inv(w) && Solvent(w) && KeepsSlack(Accounts(w), Accounts(w'))
    requires forall id :: id in Accounts(w') && id in w.ids ==> id in Accounts(w)
    requires w'.phase == w.phase || !(w'.phase.Serving? && w'.phase.handler.Checked?)
    ensures Solvent(w')
  {
  }

  lemma AdminKeepsSolvent(w: World, e: AdminEvent)
    requires Inv(w) && AdminEnabled(w, e) && Benign(w, Admin(e)) && Solvent(w)
    ensures Solvent(w.(svc := AdminNext(w.svc, e), ids := if e.NewAccount? then w.ids + {e.id} else w.ids))
  {
    SlackAdmin(w, e);
    AdminAddsOnlyNew(w.svc, e);
    KeptSlackKeepsSolvent(w, w.(svc := AdminNext(w.svc, e), ids := if e.NewAccount? then w.ids + {e.id} else w.ids));
  }

  lemma MessageKeepsSolvent(w: World, e: MessageEvent)
    requires Inv(w) && MessageEnabled(w, e) && Benign(w, Message(e)) && Bounded(w, Message(e)) && Solvent(w)
    ensures Solvent(MessageNext(w, e))
  {
    if e.SendAssociate? {
      ReservingCoveredIff(w, e.fails);
    } else if e.SendRequest? {
      CheckReserves(w, e);
    } else {
      SlackMessage(w, e);
      MessageKeepsKeys(w, e);
      KeptSlackKeepsSolvent(w, MessageNext(w, e));
    }
  }

  lemma StepKeepsSolvent(w: World, e: Event)
    requires Inv(w) && Enabled(w, e) && Benign(w, e) && Bounded(w, e) && Solvent(w)
    ensures Solvent(Next(w, e))
  {
    match e
    case Admin(a) => AdminKeepsSolvent(w, a);
    case Stream(m) =>
      SlackStream(w, m);
      StreamKeepsKeys(w.svc, m);
      KeptSlackKeepsSolvent(w, Next(w, e));
    case Message(m) => MessageKeepsSolvent(w, m);
    case Life(l) =>
  }

  ghost predicate BenignRun(w: World, es: seq<Event>)
    requires IsRun(w, es)
    decreases |es|
  {
    es == [] || (Benign(w, es[0]) && BenignRun(Next(w, es[0]), es[1..]))
  }

  /** No amount above the signed maximum is ever reserved. */
  ghost predicate BoundedRun(w: World, es: seq<Event>)
    requires IsRun(w, es)
    decreases |es|
  {
    es == [] || (Bounded(w, es[0]) && BoundedRun(Next(w, es[0]), es[1..]))
  }

  /** Every account is covered all along a run. */
  ghost predicate AlwaysCovered(w: World, es: seq<Event>)
    requires IsRun(w, es)
    decreases |es|
  {
    Covered(w) && (es == [] || AlwaysCovered(Next(w, es[0]), es[1..]))
  }

  lemma {:induction false} RunCoveredIff(w: World, es: seq<Event>)
    requires Inv(w) && Solvent(w) && IsRun(w, es) && BenignRun(w, es)
    ensures AlwaysCovered(w, es) <==> BoundedRun(w, es)
    ensures BoundedRun(w, es) ==> Solvent(After(w, es))
    decreases |es|
  {
    if es != [] {
      StepKeepsInv(w, es[0]);
      if Bounded(w, es[0]) {
        StepKeepsSolvent(w, es[0]);
        RunCoveredIff(Next(w, es[0]), es[1..]);
      } else {
        UnboundedUncovers(w, es[0]);
      }
    }
  }

  lemma UnboundedUncovers(w: World, e: Event)
    requires Inv(w) && Solvent(w) && Enabled(w, e) && !Bounded(w, e)
    ensures !Covered(Next(w, e))
  {
    ReservingCoveredIff(w, e.message.fails);
  }

  /** Exactly when no account is overdrawn: in a benign run from installation, what is in
      flight is covered by the balance in all states if and only if no amount above the
      signed maximum is reserved. */
  lemma OverdraftIff(w: World, es: seq<Event>)
    requires Initial(w) && IsRun(w, es) && BenignRun(w, es)
    ensures AlwaysCovered(w, es) <==> BoundedRun(w, es)
  {
    InitialInv(w);
    RunCoveredIff(w, es);
  }

  /** No overdraft: in every reachable state of such a run, what is in flight never
      exceeds the balance, so no balance is negative. */
  lemma NoOverdraft(w: World, es: seq<Event>, id: AccountID)
    requires Initial(w) && IsRun(w, es) && BenignRun(w, es) && BoundedRun(w, es)
    requires id in Accounts(After(w, es))
    ensures var a := Accounts(After(w, es))[id]; 0 <= InFlight(a) <= a.balance
  {
    InitialInv(w);
    RunCoveredIff(w, es);
    TotalNonNegative(Accounts(After(w, es))[id].payments, InFlightWeight);
  }

  /** Why restarts are not benign: tracking a FAILED payment again, as a
      restart does, withholds its amount again without any balance check. */
  lemma RetrackingReservesFailed(s: Service, id: AccountID, h: Hash)
    requires s.enabled && h !in s.pending && Known(s, id, h) && StatusOf(s, id, h) == FAILED
    ensures var a := s.store.accounts[id];
            var full := a.payments[h].fullAmount;
            var m := TrackPayment(s, id, h, full, TrackFaults(false, true, false)).svc.store.accounts;
            id in m && Slack(m[id]) == Slack(a) - full
  {
    var a := s.store.accounts[id];
    SlackOfWrite(a, h, PaymentEntry(UNKNOWN, a.payments[h].fullAmount));
  }
}
