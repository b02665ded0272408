/** The account service as the running program has it: one object whose fields are
    updated in place, each method proved against its specification. */
module AccountService {
  import opened AccountTypes
  import opened AccountStore
  import opened PaymentTotals
  import Spec = ServiceSpec
  import Protocol
  import Restart

  type World = Protocol.World
  type Event = Protocol.Event

  /** Balance minus the sum of everything in flight; the sum may be taken in any order. */
  method AvailableBalance(a: Account) returns (available: Int64)
    ensures available == Spec.Available(a)
  {
    var inFlight: Int64 := 0;
    var todo := a.payments;
    while todo.Keys != {}
      invariant Summed(inFlight, a.payments, todo)
      decreases |todo|
    {
      var h :| h in todo.Keys;
      inFlight := AddIfInFlight(inFlight, todo[h], a.payments, todo, h);
      todo := todo - {h};
    }
    available := Subtract(a.balance, inFlight, a.payments, todo);
  }

  /** The sum over all payments but the given ones, in 64-bit arithmetic. */
  ghost predicate Summed(inFlight: Int64, all: Payments, todo: Payments) {
    inFlight == ToInt64(Total(all, InFlightWeight) - Total(todo, InFlightWeight))
  }

  method AddIfInFlight(inFlight: Int64, e: PaymentEntry, ghost all: Payments, ghost todo: Payments, ghost h: Hash)
    returns (r: Int64)
    requires Summed(inFlight, all, todo) && h in todo && e == todo[h]
    ensures Summed(r, all, todo - {h})
  {
    TotalPick(todo, InFlightWeight, h);
    if !InflightState(e.status) {
      return inFlight;
    }
    WrapSum(Total(all, InFlightWeight) - Total(todo, InFlightWeight), e.fullAmount);
    r := ToInt64(inFlight + ToInt64(e.fullAmount));
  }

  method Subtract(balance: Int64, inFlight: Int64, ghost all: Payments, ghost todo: Payments) returns (r: Int64)
    requires Summed(inFlight, all, todo) && todo.Keys == {}
    ensures r == ToInt64(balance - Total(all, InFlightWeight))
  {
    assert todo == map[];
    WrapAbsorbs(balance, Total(all, InFlightWeight));
    r := ToInt64(balance - inFlight);
  }

  class InterceptorService {
    var store: Store
    var isEnabled: bool
    var current: Indexes
    var invoiceToAccount: map<Hash, AccountID>
    var pendingPayments: map<Hash, Spec.TrackedPayment>
    var requestValues: map<Uint64, Spec.RequestValues>

    ghost function State(): Spec.Service
      reads this
    {
      Spec.Service(store, isEnabled, current, invoiceToAccount, pendingPayments, requestValues)
    }

    constructor (st: Store)
      ensures State() == Spec.Service(st, false, Indexes(0, 0), map[], map[], map[])
    {
      store, isEnabled, current := st, false, Indexes(0, 0);
      invoiceToAccount, pendingPayments, requestValues := map[], map[], map[];
    }

    method CheckBalance(id: AccountID, required: Msat, now: Int64) returns (err: Option<Error>)
      ensures err == Spec.BalanceVerdict(store, id, required, now)
    {
      if id !in store.accounts {
        return Some(NotFound);
      }
      if Spec.HasExpired(store.accounts[id], now) {
        return Some(Expired);
      }
      var available := AvailableBalance(store.accounts[id]);
      if available < ToInt64(required) {
        return Some(Insufficient);
      }
      err := None;
    }

    method AssociateInvoice(id: AccountID, h: Hash, fails: bool) returns (err: Option<Error>)
      modifies this
      ensures Spec.Step(State(), err) == Spec.AssociateInvoice(old(State()), id, h, fails)
    {
      match Spec.Attempt(fails, AddInvoice(store, id, h))
      case Err(e) => return Some(e);
      case Ok(st) =>
        store := st;
        invoiceToAccount := invoiceToAccount[h := id];
        err := None;
    }

    method AssociatePayment(id: AccountID, h: Hash, amount: Msat, fails: bool) returns (err: Option<Error>)
      modifies this`store
      ensures Spec.Step(State(), err) == Spec.AssociatePayment(old(State()), id, h, amount, fails)
    {
      var opts := NO_OPTIONS.(errIfAlreadyPending := true);
      match Spec.Attempt(fails, UpsertPayment(store, id, h, amount, UNKNOWN, opts))
      case Err(e) => return Some(e);
      case Ok(st) =>
        store := st;
        err := None;
    }

    method PaymentErrored(id: AccountID, h: Hash, fails: bool) returns (err: Option<Error>)
      modifies this`store
      ensures Spec.Step(State(), err) == Spec.PaymentErrored(old(State()), id, h, fails)
    {
      if h in pendingPayments {
        return Some(AlreadyTracked);
      }
      match Spec.Attempt(fails, DeletePayment(store, id, h))
      case Err(e) => return Some(e);
      case Ok(st) =>
        store := st;
        err := None;
    }

    method InvoiceUpdate(inv: Spec.InvoiceEvent, indexFails: bool, creditFails: bool) returns (err: Option<Error>)
      modifies this
      ensures Spec.Step(State(), err) == Spec.InvoiceUpdate(old(State()), inv, indexFails, creditFails)
    {
      if !isEnabled {
        return Some(Disabled);
      }
      var needUpdate := false;
      if inv.addIndex > current.add {
        current := current.(add := inv.addIndex);
        needUpdate := true;
      }
      if inv.settleIndex > current.settle {
        current := current.(settle := inv.settleIndex);
        needUpdate := true;
      }
      if needUpdate {
        if indexFails {
          isEnabled := false;
          return Some(StoreFailure);
        }
        store := StoreLastIndexes(store, current.add, current.settle);
      }
      if !inv.settled || inv.hash !in invoiceToAccount {
        return None;
      }
      match Spec.Attempt(creditFails, Credit(store, invoiceToAccount[inv.hash], inv.amountPaid))
      case Err(e) =>
        isEnabled := false;
        return Some(e);
      case Ok(st) =>
        store := st;
        invoiceToAccount := invoiceToAccount - {inv.hash};
        err := None;
    }

    method TrackPayment(id: AccountID, h: Hash, amount: Msat, f: Spec.TrackFaults) returns (err: Option<Error>)
      modifies this`store, this`isEnabled, this`pendingPayments
      ensures Spec.Step(State(), err) == Spec.TrackPayment(old(State()), id, h, amount, f)
    {
      if h in pendingPayments {
        return None;
      }
      var opts := NO_OPTIONS.(errIfAlreadySucceeded := true);
      if amount == 0 {
        opts := opts.(usePendingAmount := true);
      }
      var r := Spec.Attempt(f.storeFails, UpsertPayment(store, id, h, amount, UNKNOWN, opts));
      if r.Err? {
        if r.error == AlreadySucceeded {
          return None;
        }
        if !f.known {
          isEnabled := false;
        }
        return Some(r.error);
      }
      store := r.value;
      if !isEnabled {
        return Some(Disabled);
      }
      if f.rpcFails {
        return Some(RpcFailure);
      }
      pendingPayments := pendingPayments[h := Spec.TrackedPayment(id, amount)];
      err := None;
    }

    method RemovePayment(h: Hash, status: Status, fails: bool) returns (err: Option<Error>)
      modifies this`store, this`pendingPayments
      ensures Spec.Step(State(), err) == Spec.RemovePayment(old(State()), h, status, fails)
    {
      if h !in pendingPayments {
        return None;
      }
      var opts := NO_OPTIONS.(errIfUnknown := true, usePendingAmount := true);
      var r := Spec.Attempt(fails, UpsertPayment(store, pendingPayments[h].account, h, 0, status, opts));
      if r.Err? && r.error != NotAssociated {
        return Some(r.error);
      }
      if r.Ok? {
        store := r.value;
      }
      pendingPayments := pendingPayments - {h};
      err := None;
    }

    /** Also reports whether the state was terminal, so that no further updates follow. */
    method PaymentUpdate(h: Hash, status: Status, value: Msat, fee: Msat, debitFails: bool, removeFails: bool)
      returns (terminal: bool, err: Option<Error>)
      modifies this
      ensures Spec.Step(State(), err) == Spec.PaymentUpdate(old(State()), h, status, value, fee, debitFails, removeFails)
      ensures terminal <==> !InflightState(status) && old(isEnabled)
    {
      if InflightState(status) {
        return false, None;
      }
      terminal := true;
      if !isEnabled {
        return false, Some(Disabled);
      }
      if h !in pendingPayments {
        isEnabled := false;
        return true, Some(NotMapped);
      }
      if status == FAILED {
        err := RemovePayment(h, FAILED, removeFails);
        if err.Some? {
          isEnabled := false;
        }
        return;
      }
      var fullAmount := ToUint64(value + fee);
      var opts := NO_OPTIONS.(debitAccount := true);
      var r := Spec.Attempt(debitFails, UpsertPayment(store, pendingPayments[h].account, h, fullAmount, SUCCEEDED, opts));
      if r.Err? {
        isEnabled := false;
        return true, Some(r.error);
      }
      store := r.value;
      err := RemovePayment(h, SUCCEEDED, removeFails);
      if err.Some? {
        isEnabled := false;
      }
    }

    /** failAt: how many store writes succeed before one fails. */
    method RemoveAccount(id: AccountID, failAt: nat) returns (err: Option<Error>, ghost dropped: set<Hash>)
      modifies this`store, this`pendingPayments
      ensures Spec.AccountRemoval(old(State()), id, dropped, Spec.Step(State(), err))
      ensures id in old(store.accounts) && |Spec.TrackedBy(old(State()), id)| < failAt ==> err.None?
    {
      var writes;
      err, writes, dropped := DropPayments(id, failAt);
      if err.Some? {
        return;
      }
      DropEnds(old(State()), State(), id, dropped, writes);
      if id !in store.accounts {
        return Some(NotFound), dropped;
      }
      if writes == failAt {
        return Some(StoreFailure), dropped;
      }
      store := store.(accounts := store.accounts - {id});
    }

    /** The loop that stops tracking the payments of an account. */
    method DropPayments(id: AccountID, failAt: nat) returns (err: Option<Error>, writes: nat, ghost dropped: set<Hash>)
      modifies this`store, this`pendingPayments
      ensures err.Some? ==> Interrupted(old(State()), id, dropped, Spec.Step(State(), err), failAt)
      ensures err.None? ==> Dropping(old(State()), State(), id, {}, dropped, writes)
    {
      ghost var s0 := State();
      dropped := {};
      writes := 0;
      var todo := pendingPayments.Keys;
      DropStarts(s0, id);
      while todo != {}
        invariant Dropping(s0, State(), id, todo, dropped, writes)
        decreases todo
      {
        var h :| h in todo;
        err, writes, dropped := DropIfOwn(id, h, failAt, writes, s0, todo, dropped);
        if err.Some? {
          return;
        }
        todo := todo - {h};
      }
      err := None;
    }

    method DropIfOwn(id: AccountID, h: Hash, failAt: nat, n: nat, ghost s0: Spec.Service, ghost todo: set<Hash>,
                     ghost so: set<Hash>)
      returns (err: Option<Error>, writes: nat, ghost dropped: set<Hash>)
      requires Dropping(s0, State(), id, todo, so, n) && h in todo
      modifies this`store, this`pendingPayments
      ensures err.Some? ==> Interrupted(s0, id, dropped, Spec.Step(State(), err), failAt)
      ensures err.None? ==> Dropping(s0, State(), id, todo - {h}, dropped, writes)
    {
      DropLooks(s0, State(), id, todo, so, n, h);
      if pendingPayments[h].account != id {
        return None, n, so;
      }
      DropNext(s0, State(), id, todo, so, n, h, failAt);
      err := RemovePayment(h, FAILED, n == failAt);
      if err.Some? {
        return err, n, so;
      }
      return None, n + 1, so + {h};
    }

    /** Starting resumes tracking every payment that has not succeeded and maps every
        stored invoice. It is a run of the protocol: the restart, the payments taken up
        one by one, and the subscription; a failure ends it where it happens. */
    method Start(faults: (AccountID, Hash) -> Spec.TrackFaults, accountsFail: bool, indexFails: bool,
                 ghost before: World)
      returns (err: Option<Error>, ghost es: seq<Event>)
      requires State() == Spec.Service(before.svc.store, false, Indexes(0, 0), map[], map[], map[])
      modifies this
      ensures Restart.Started(before, es, State())
      ensures isEnabled <==> err.None?
      ensures err.Some? ==> accountsFail || indexFails || SomeFault(faults)
    {
      ghost var any := Restart.AnyMapping(store);
      isEnabled := true;
      if accountsFail {
        isEnabled := false;
        es := [Protocol.Life(Protocol.Restart(any, true))];
        Restart.StartFails(before, any, State());
        return Some(StoreFailure), es;
      }
      Restart.BeginsTracking(before, any, State());
      ghost var tracks;
      err, tracks := ResumeAccounts(faults, before.svc.store, Protocol.LifeNext(before, Protocol.Restart(any, false)));
      if err.Some? {
        Restart.StartStops(before, any, tracks, State());
        es := [Protocol.Life(Protocol.Restart(any, false))] + tracks;
        isEnabled := false;
        return;
      }
      Restart.StartSucceeds(before, any, tracks, State(), indexFails);
      es := [Protocol.Life(Protocol.Restart(invoiceToAccount, false))] +
            (tracks + [Protocol.Life(Protocol.StartSubscribe(indexFails))]);
      if indexFails {
        isEnabled := false;
        return Some(StoreFailure), es;
      }
      current := if store.indexes.Some? then store.indexes.value else Indexes(0, 0);
    }

    /** The loop over the accounts: maps the invoices of each and takes its payments up. */
    method ResumeAccounts(faults: (AccountID, Hash) -> Spec.TrackFaults, ghost st0: Store, ghost w0: World)
      returns (err: Option<Error>, ghost tracks: seq<Event>)
      requires store == st0 && isEnabled && invoiceToAccount == map[]
      requires Restart.Tracking(w0, [], State(), Protocol.ToTrack(st0))
      modifies this
      ensures err.None? ==> isEnabled && Restart.Tracking(w0, tracks, State(), map[])
      ensures err.None? ==> Restart.MapsBut(st0, invoiceToAccount, {})
      ensures err.Some? ==> Restart.Stopped(w0, tracks, State()) && SomeFault(faults)
    {
      var existing := store.accounts;
      var todo := existing.Keys;
      tracks := [];
      Restart.LeftAll(st0);
      while todo != {}
        invariant todo <= existing.Keys && existing == st0.accounts
        invariant isEnabled && Restart.Tracking(w0, tracks, State(), Restart.Left(st0, todo))
        invariant Restart.MapsBut(st0, invoiceToAccount, todo)
        invariant store.accounts.Keys == st0.accounts.Keys
        decreases todo
      {
        var id :| id in todo;
        ghost var mapped := invoiceToAccount;
        MapInvoices(id, existing[id].invoices);
        Restart.MapsOneMore(st0, mapped, invoiceToAccount, todo, id);
        err, tracks := ResumePayments(id, existing[id].payments, faults, st0, todo, w0, tracks);
        if err.Some? {
          return;
        }
        Restart.LeftTakesOff(st0, todo, id);
        todo := todo - {id};
      }
      err := None;
    }

    method MapInvoices(id: AccountID, invoices: set<Hash>)
      modifies this`invoiceToAccount
      ensures invoiceToAccount.Keys == old(invoiceToAccount).Keys + invoices
      ensures forall h :: h in invoiceToAccount ==>
                invoiceToAccount[h] == if h in invoices then id else old(invoiceToAccount)[h]
    {
      ghost var m0 := invoiceToAccount;
      var todo := invoices;
      while todo != {}
        invariant todo <= invoices
        invariant invoiceToAccount.Keys == m0.Keys + (invoices - todo)
        invariant forall h :: h in invoiceToAccount ==>
                    invoiceToAccount[h] == if h in invoices - todo then id else m0[h]
        decreases todo
      {
        var h :| h in todo;
        invoiceToAccount := invoiceToAccount[h := id];
        todo := todo - {h};
      }
    }

    /** The loop over the payments of one account. */
    method ResumePayments(id: AccountID, payments: Payments, faults: (AccountID, Hash) -> Spec.TrackFaults,
                          ghost st0: Store, ghost accounts: set<AccountID>, ghost w0: World, ghost so: seq<Event>)
      returns (err: Option<Error>, ghost tracks: seq<Event>)
      requires isEnabled && id in accounts && id in st0.accounts && payments == st0.accounts[id].payments
      requires store.accounts.Keys == st0.accounts.Keys
      requires Restart.Tracking(w0, so, State(), Restart.Left(st0, accounts))
      modifies this`store, this`isEnabled, this`pendingPayments
      ensures err.None? ==> isEnabled && Restart.Tracking(w0, tracks, State(), Restart.LeftOf(Restart.Left(st0, accounts), id, {}))
      ensures err.None? ==> store.accounts.Keys == st0.accounts.Keys
      ensures err.Some? ==> Restart.Stopped(w0, tracks, State()) && SomeFault(faults)
    {
      var todo := payments.Keys;
      tracks := so;
      ghost var left := Restart.Left(st0, accounts);
      Restart.LeftOfAll(st0, accounts, id);
      while todo != {}
        invariant todo <= payments.Keys && isEnabled && store.accounts.Keys == st0.accounts.Keys
        invariant Restart.Tracking(w0, tracks, State(), Restart.LeftOf(left, id, todo))
        decreases todo
      {
        var h :| h in todo;
        Restart.LeftOne(st0, accounts, id, h, todo);
        if !SuccessState(payments[h].status) {
          Restart.TakeUp(w0, tracks, State(), Restart.LeftOf(left, id, todo), id, h, faults(id, h));
          Restart.TrackStaysEnabled(State(), id, h, payments[h].fullAmount, faults(id, h));
          TakenUpUnlessFault(State(), id, h, payments[h].fullAmount, faults);
          err := TrackPayment(id, h, payments[h].fullAmount, faults(id, h));
          tracks := tracks + [Protocol.Life(Protocol.StartTrack(id, h, faults(id, h)))];
          if err.Some? {
            return;
          }
        }
        todo := todo - {h};
      }
      err := None;
    }

    method RegisterValues(req: Uint64, v: Spec.RequestValues) returns (err: Option<Error>)
      modifies this`requestValues
      ensures Spec.Step(State(), err) == Spec.RegisterValues(old(State()), req, v)
    {
      if req in requestValues {
        return Some(AlreadyRegistered);
      }
      requestValues := requestValues[req := v];
      err := None;
    }

    method DeleteValues(req: Uint64)
      modifies this`requestValues
      ensures State() == Spec.DeleteValues(old(State()), req)
    {
      requestValues := requestValues - {req};
    }
  }

  /** Something fails while the payments are taken up. */
  ghost predicate SomeFault(faults: (AccountID, Hash) -> Spec.TrackFaults) {
    exists id, h :: faults(id, h).storeFails || faults(id, h).rpcFails
  }

  lemma TakenUpUnlessFault(s: Spec.Service, id: AccountID, h: Hash, amount: Msat, faults: (AccountID, Hash) -> Spec.TrackFaults)
    requires s.enabled && id in s.store.accounts
    ensures var r := Spec.TrackPayment(s, id, h, amount, faults(id, h));
            && (r.error.Some? ==> SomeFault(faults))
            && r.svc.store.accounts.Keys == s.store.accounts.Keys
  {
  }

  lemma DropNone(s: Spec.Service, id: AccountID)
    ensures Spec.DropTracked(s, id, {}) == s
  {
    assert s.pending - {} == s.pending;
    if id in s.store.accounts {
      var a := s.store.accounts[id];
      assert Spec.FailAll(a.payments, {}) == a.payments;
      assert s.store.accounts[id := a] == s.store.accounts;
    }
  }

  /** Marking the entry of a tracked payment FAILED keeps its amount. */
  lemma MarkFailed(a: Account, h: Hash)
    requires h in a.payments
    ensures UpsertAccount(a, h, 0, FAILED, Spec.REMOVE_OPTIONS) ==
            Ok(a.(payments := a.payments[h := a.payments[h].(status := FAILED)]))
  {
  }

  lemma DropRecorded(s: Spec.Service, id: AccountID, hs: set<Hash>, h: Hash)
    requires h in s.pending && s.pending[h].account == id && h !in hs && id in s.store.accounts
    ensures var d := Spec.DropTracked(s, id, hs);
            Spec.RemovePayment(d, h, FAILED, false) == Spec.Done(Spec.DropTracked(s, id, hs + {h}))
  {
    var a := s.store.accounts[id];
    var p := Spec.FailAll(a.payments, hs);
    var a1 := a.(payments := p);
    var d := Spec.DropTracked(s, id, hs);
    FailOneMore(a.payments, hs, h);
    assert d.pending - {h} == s.pending - (hs + {h});
    assert d.store == Replace(s.store, id, a1);
    if h in p {
      MarkFailed(a1, h);
      var a2 := a1.(payments := p[h := p[h].(status := FAILED)]);
      assert Replace(d.store, id, a2) == Replace(s.store, id, a2);
    }
  }

  /** Dropping one more tracked payment of the account. */
  lemma DropOne(s: Spec.Service, id: AccountID, hs: set<Hash>, h: Hash, fails: bool)
    requires hs <= Spec.TrackedBy(s, id) && h in Spec.TrackedBy(s, id) && h !in hs
    ensures var d := Spec.DropTracked(s, id, hs);
            var r := Spec.RemovePayment(d, h, FAILED, fails);
            if r.error.Some? then r.svc == d
            else id in s.store.accounts && r.svc == Spec.DropTracked(s, id, hs + {h})
  {
    var d := Spec.DropTracked(s, id, hs);
    assert h in d.pending && d.pending[h].account == id;
    if id in s.store.accounts && !fails {
      DropRecorded(s, id, hs, h);
    }
  }

  /** How far the removal of an account is: what is dropped, what is still to be looked
      at, and how many writes were made. */
  ghost predicate Dropping(s0: Spec.Service, s: Spec.Service, id: AccountID, todo: set<Hash>, dropped: set<Hash>, writes: nat) {
    && dropped <= Spec.TrackedBy(s0, id) && (dropped != {} ==> id in s0.store.accounts)
    && s == Spec.DropTracked(s0, id, dropped)
    && todo !! dropped && Spec.TrackedBy(s0, id) <= todo + dropped && todo <= s0.pending.Keys
    && writes == |dropped|
  }

  /** The removal stopped at a payment: its account is missing or the write failed. */
  ghost predicate Interrupted(s0: Spec.Service, id: AccountID, dropped: set<Hash>, r: Spec.Step, failAt: nat) {
    Spec.AccountRemoval(s0, id, dropped, r) && (id !in s0.store.accounts || failAt <= |Spec.TrackedBy(s0, id)|)
  }

  lemma DropEnds(s0: Spec.Service, s: Spec.Service, id: AccountID, dropped: set<Hash>, writes: nat)
    requires Dropping(s0, s, id, {}, dropped, writes)
    ensures dropped == Spec.TrackedBy(s0, id) && writes == |dropped| && s == Spec.DropTracked(s0, id, dropped)
    ensures id in s.store.accounts <==> id in s0.store.accounts
  {
  }

  lemma DropStarts(s: Spec.Service, id: AccountID)
    ensures Dropping(s, s, id, s.pending.Keys, {}, 0)
  {
    DropNone(s, id);
  }

  /** A payment of another account is passed over. */
  lemma DropLooks(s0: Spec.Service, s: Spec.Service, id: AccountID, todo: set<Hash>, dropped: set<Hash>, writes: nat, h: Hash)
    requires Dropping(s0, s, id, todo, dropped, writes) && h in todo
    ensures h in s.pending && s.pending[h] == s0.pending[h]
    ensures s.pending[h].account != id ==> Dropping(s0, s, id, todo - {h}, dropped, writes)
  {
  }

  /** A payment of the account is dropped, unless its write fails. */
  lemma DropNext(s0: Spec.Service, s: Spec.Service, id: AccountID, todo: set<Hash>, dropped: set<Hash>, writes: nat, h: Hash,
                 failAt: nat)
    requires Dropping(s0, s, id, todo, dropped, writes) && h in todo && h in Spec.TrackedBy(s0, id)
    ensures var r := Spec.RemovePayment(s, h, FAILED, writes == failAt);
            if r.error.Some? then Interrupted(s0, id, dropped, r, failAt)
            else Dropping(s0, r.svc, id, todo - {h}, dropped + {h}, writes + 1)
  {
    DropOne(s0, id, dropped, h, writes == failAt);
    FewerThan(dropped, Spec.TrackedBy(s0, id), h);
    if id in s0.store.accounts {
      DropRecorded(s0, id, dropped, h);
    }
  }

  lemma {:induction false} FewerThan<T>(a: set<T>, b: set<T>, x: T)
    requires a <= b && x in b && x !in a
    ensures |a| < |b|
  {
    if a == {} {
      assert |b| > 0;
    } else {
      var y :| y in a;
      FewerThan(a - {y}, b - {y}, x);
    }
  }

  lemma FailOneMore(p: Payments, hs: set<Hash>, h: Hash)
    ensures var q := Spec.FailAll(p, hs);
            Spec.FailAll(p, hs + {h}) == if h in p then q[h := q[h].(status := FAILED)] else q
  {
  }
}
