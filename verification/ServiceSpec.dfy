/** What each call of the account service does to its whole state: the persisted
    store, the caches of tracked payments and mapped invoices, the registered
    request values and the enabled flag. Every store write can fail, leaving the
    store as it was. */
module ServiceSpec {
  import opened AccountTypes
  import opened AccountStore
  import opened PaymentTotals

  datatype TrackedPayment = TrackedPayment(account: AccountID, fullAmount: Msat)

  datatype RequestValues = RequestValues(hash: Hash, amount: Msat)

  datatype Service = Service(
    store: Store,
    enabled: bool,
    current: Indexes,
    invoiceToAccount: map<Hash, AccountID>,
    pending: map<Hash, TrackedPayment>,
    requests: map<Uint64, RequestValues>)

  datatype Step = Step(svc: Service, error: Option<Error>)

  /** What can go wrong in one call of TrackPayment. The known flag is the
      best-effort boolean the store returns beside an error. */
  datatype TrackFaults = TrackFaults(storeFails: bool, known: bool, rpcFails: bool)

  function Done(s: Service): Step {
    Step(s, None)
  }

  function Refused(s: Service, e: Error): Step {
    Step(s, Some(e))
  }

  function DisabledBy(s: Service, e: Error): Step {
    Step(s.(enabled := false), Some(e))
  }

  /** A store write that may fail for reasons of its own. */
  function Attempt<T>(fails: bool, r: Result<T>): Result<T> {
    if fails then Err(StoreFailure) else r
  }

  function StoreStep(s: Service, r: Result<Store>): Step {
    match r
    case Ok(st) => Done(s.(store := st))
    case Err(e) => Refused(s, e)
  }

  /** Balance minus everything in flight, in wrapping 64-bit arithmetic. */
  ghost function Available(a: Account): Int64 {
    ToInt64(a.balance - InFlight(a))
  }

  predicate HasExpired(a: Account, now: Int64) {
    a.expiry.Some? && a.expiry.value < now
  }

  ghost function BalanceVerdict(st: Store, id: AccountID, required: Msat, now: Int64): Option<Error> {
    if id !in st.accounts then Some(NotFound)
    else if HasExpired(st.accounts[id], now) then Some(Expired)
    else if Available(st.accounts[id]) < ToInt64(required) then Some(Insufficient)
    else None
  }

  function AssociateInvoice(s: Service, id: AccountID, h: Hash, fails: bool): Step {
    match Attempt(fails, AddInvoice(s.store, id, h))
    case Ok(st) => Done(s.(store := st, invoiceToAccount := s.invoiceToAccount[h := id]))
    case Err(e) => Refused(s, e)
  }

  function AssociatePayment(s: Service, id: AccountID, h: Hash, amount: Msat, fails: bool): Step {
    StoreStep(s, Attempt(fails, UpsertPayment(s.store, id, h, amount, UNKNOWN,
                                              NO_OPTIONS.(errIfAlreadyPending := true))))
  }

  function PaymentErrored(s: Service, id: AccountID, h: Hash, fails: bool): Step {
    if h in s.pending then Refused(s, AlreadyTracked)
    else StoreStep(s, Attempt(fails, DeletePayment(s.store, id, h)))
  }

  function TrackOptions(amount: Msat): UpsertOptions {
    NO_OPTIONS.(errIfAlreadySucceeded := true, usePendingAmount := amount == 0)
  }

  function TrackPayment(s: Service, id: AccountID, h: Hash, amount: Msat, f: TrackFaults): Step {
    if h in s.pending then Done(s)
    else
      match Attempt(f.storeFails, UpsertPayment(s.store, id, h, amount, UNKNOWN, TrackOptions(amount)))
      case Err(AlreadySucceeded) => Done(s)
      case Err(e) => if f.known then Refused(s, e) else DisabledBy(s, e)
      case Ok(st) =>
        var s1 := s.(store := st);
        if !s.enabled then Refused(s1, Disabled)
        else if f.rpcFails then Refused(s1, RpcFailure)
        else Done(s1.(pending := s.pending[h := TrackedPayment(id, amount)]))
  }

  const REMOVE_OPTIONS := NO_OPTIONS.(errIfUnknown := true, usePendingAmount := true)

  /** Stop tracking a payment and record its final status. */
  function RemovePayment(s: Service, h: Hash, status: Status, fails: bool): Step {
    if h !in s.pending then Done(s)
    else
      match Attempt(fails, UpsertPayment(s.store, s.pending[h].account, h, 0, status, REMOVE_OPTIONS))
      case Ok(st) => Done(s.(store := st, pending := s.pending - {h}))
      case Err(NotAssociated) => Done(s.(pending := s.pending - {h}))
      case Err(e) => Refused(s, e)
  }

  function DisableOnError(r: Step): Step {
    if r.error.Some? then DisabledBy(r.svc, r.error.value) else r
  }

  /** A status update for a tracked payment: a failure releases it, a success
      debits value plus fee and releases it. */
  function PaymentUpdate(s: Service, h: Hash, status: Status, value: Msat, fee: Msat,
                         debitFails: bool, removeFails: bool): Step {
    if InflightState(status) then Done(s)
    else if !s.enabled then Refused(s, Disabled)
    else if h !in s.pending then DisabledBy(s, NotMapped)
    else if status == FAILED then DisableOnError(RemovePayment(s, h, FAILED, removeFails))
    else
      match Attempt(debitFails, UpsertPayment(s.store, s.pending[h].account, h, ToUint64(value + fee), SUCCEEDED,
                                              NO_OPTIONS.(debitAccount := true)))
      case Err(e) => DisabledBy(s, e)
      case Ok(st) => DisableOnError(RemovePayment(s.(store := st), h, SUCCEEDED, removeFails))
  }

  datatype InvoiceEvent = InvoiceEvent(hash: Hash, addIndex: Uint64, settleIndex: Uint64, settled: bool, amountPaid: Msat)

  function Advance(c: Indexes, inv: InvoiceEvent): Indexes {
    Indexes(if inv.addIndex > c.add then inv.addIndex else c.add,
            if inv.settleIndex > c.settle then inv.settleIndex else c.settle)
  }

  /** The account a processed invoice event credits, if any. */
  function CreditTarget(s: Service, inv: InvoiceEvent): Option<AccountID> {
    if inv.settled && inv.hash in s.invoiceToAccount then Some(s.invoiceToAccount[inv.hash]) else None
  }

  /** Remember the highest indexes seen, in memory first and then in the store. */
  function RecordIndexes(s: Service, inv: InvoiceEvent, fails: bool): Step {
    var c := Advance(s.current, inv);
    if c == s.current then Done(s)
    else if fails then DisabledBy(s.(current := c), StoreFailure)
    else Done(s.(current := c, store := StoreLastIndexes(s.store, c.add, c.settle)))
  }

  function CreditInvoice(s: Service, inv: InvoiceEvent, fails: bool): Step {
    match CreditTarget(s, inv)
    case None => Done(s)
    case Some(id) =>
      match Attempt(fails, Credit(s.store, id, inv.amountPaid))
      case Err(e) => DisabledBy(s, e)
      case Ok(st) => Done(s.(store := st, invoiceToAccount := s.invoiceToAccount - {inv.hash}))
  }

  function InvoiceUpdate(s: Service, inv: InvoiceEvent, indexFails: bool, creditFails: bool): Step {
    if !s.enabled then Refused(s, Disabled)
    else
      var r := RecordIndexes(s, inv, indexFails);
      if r.error.Some? then r else CreditInvoice(r.svc, inv, creditFails)
  }

  /** Admin calls that write one account run only while the service is enabled. */
  function AdminStep(s: Service, r: Result<Store>): Step {
    if !s.enabled then Refused(s, Disabled) else StoreStep(s, r)
  }

  function TrackedBy(s: Service, id: AccountID): set<Hash> {
    set h | h in s.pending && s.pending[h].account == id
  }

  function FailAll(m: Payments, hs: set<Hash>): Payments {
    map h | h in m :: if h in hs then m[h].(status := FAILED) else m[h]
  }

  /** The tracked payments hs of an account dropped and recorded as failed. */
  function DropTracked(s: Service, id: AccountID, hs: set<Hash>): Service {
    if id !in s.store.accounts then s.(pending := s.pending - hs)
    else
      var a := s.store.accounts[id];
      s.(pending := s.pending - hs, store := Replace(s.store, id, a.(payments := FailAll(a.payments, hs))))
  }

  /** Removing an account first drops its tracked payments one by one; a store
      failure can stop it after any of them. */
  ghost predicate AccountRemoval(s: Service, id: AccountID, dropped: set<Hash>, r: Step) {
    && dropped <= TrackedBy(s, id)
    && (dropped != {} ==> id in s.store.accounts)
    && var d := DropTracked(s, id, dropped);
       if r.error.Some? then r.svc == d
       else
         && dropped == TrackedBy(s, id)
         && id in s.store.accounts
         && r.svc == d.(store := d.store.(accounts := d.store.accounts - {id}))
  }

  function RegisterValues(s: Service, req: Uint64, v: RequestValues): Step {
    if req in s.requests then Refused(s, AlreadyRegistered)
    else Done(s.(requests := s.requests[req := v]))
  }

  function DeleteValues(s: Service, req: Uint64): Service {
    s.(requests := s.requests - {req})
  }
}
