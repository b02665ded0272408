/** The whole accounts system as interleaved atomic steps. The service lock makes
    each service call atomic; the request mutex lets at most one intercepted
    message be handled at a time, but other steps run between the calls of that
    handler. A restart keeps only the store. */
module Protocol {
  import opened AccountTypes
  import opened AccountStore
  import opened ServiceSpec

  /** Where the handler holding the request mutex is. */
  datatype Handler =
    | Idle
    | Checked(req: Uint64, id: AccountID, hash: Hash, amount: Msat)     // balance checked
    | Associated(req: Uint64, id: AccountID, hash: Hash, amount: Msat)  // entry stored, values not registered
    | Finishing(req: Uint64)                                            // outcome recorded, values not deleted
    | Removing(hash: Hash)                                              // values deleted, payment not removed

  datatype Phase =
    | Starting(todo: map<(AccountID, Hash), Msat>)        // payments still to be tracked again
    | Serving(handler: Handler)

  /** owners: the account of the macaroon each request ID was seen with. ids: every
      account ID ever drawn. floor: the highest settle index the live invoice
      subscription has asked for or delivered. */
  datatype World = World(
    svc: Service,
    phase: Phase,
    owners: map<Uint64, AccountID>,
    ids: set<AccountID>,
    floor: Option<Uint64>)

  datatype AdminEvent =
    | NewAccount(id: AccountID, balance: Msat, expiry: Option<Int64>, name: seq<Byte>)
    | CreditAccount(id: AccountID, amount: Msat, fails: bool)
    | DebitAccount(id: AccountID, amount: Msat, fails: bool)
    | UpdateAccount(id: AccountID, newBalance: Option<Int64>, newExpiry: Option<Option<Int64>>, fails: bool)
    | RemoveAccount(id: AccountID, dropped: set<Hash>, fails: bool)

  datatype StreamEvent =
    | InvoiceUpdate(inv: InvoiceEvent, indexFails: bool, creditFails: bool)
    | PaymentUpdate(hash: Hash, status: Status, value: Msat, fee: Msat, debitFails: bool, removeFails: bool)
    | NotInitiated(hash: Hash, fails: bool)
    | StreamError

  datatype MessageEvent =
    | AddInvoiceResponse(id: AccountID, hash: Hash, fails: bool)
    | SendRequest(req: Uint64, id: AccountID, hash: Hash, amount: Msat, now: Int64)
    | SendAssociate(fails: bool)
    | SendRegister
    | SendResponse(req: Uint64, amount: Msat, faults: TrackFaults)
    | SendFailedResponse(req: Uint64)
    | SendError(req: Uint64, fails: bool)
    | HandlerDeletes
    | HandlerRemoves(fails: bool)

  datatype LifeEvent =
    | Restart(mapped: map<Hash, AccountID>, accountsFail: bool)
    | StartTrack(id: AccountID, hash: Hash, faults: TrackFaults)
    | StartSubscribe(indexFails: bool)

  datatype Event =
    | Admin(admin: AdminEvent)
    | Stream(stream: StreamEvent)
    | Message(message: MessageEvent)
    | Life(life: LifeEvent)

  function IdleWorld(w: World, s: Service): World {
    w.(svc := s, phase := Serving(Idle))
  }

  predicate IsIdle(w: World) {
    w.phase == Serving(Idle)
  }

  /** Every stored payment that has not succeeded is tracked again, failed ones too. */
  ghost function ToTrack(st: Store): map<(AccountID, Hash), Msat> {
    var keys := set id, h | id in st.accounts && h in st.accounts[id].payments &&
                            !SuccessState(st.accounts[id].payments[h].status) :: (id, h);
    map k | k in keys :: st.accounts[k.0].payments[k.1].fullAmount
  }

  /** Which account wins when two own the same invoice depends on iteration order. */
  ghost predicate MapsAllInvoices(st: Store, m: map<Hash, AccountID>) {
    && (forall h :: h in m ==> m[h] in st.accounts && h in st.accounts[m[h]].invoices)
    && (forall id, h :: id in st.accounts && h in st.accounts[id].invoices ==> h in m)
  }

  function KnownIndexes(st: Store): Indexes {
    if st.indexes.Some? then st.indexes.value else Indexes(0, 0)
  }

  ghost predicate AdminEnabled(w: World, e: AdminEvent) {
    match e
    case NewAccount(id, _, _, name) => id !in w.ids && LabelAllowed(w.svc.store, name)
    case RemoveAccount(id, dropped, fails) =>
      && dropped <= TrackedBy(w.svc, id)
      && (dropped != {} || !fails ==> id in w.svc.store.accounts)
      && (!fails ==> dropped == TrackedBy(w.svc, id))
    case _ => true
  }

  ghost function AdminNext(s: Service, e: AdminEvent): Service {
    match e
    case NewAccount(id, balance, expiry, name) =>
      s.(store := Replace(s.store, id, FreshAccount(balance, expiry, name)))
    case CreditAccount(id, amount, fails) =>
      AdminStep(s, Attempt(fails, Credit(s.store, id, amount))).svc
    case DebitAccount(id, amount, fails) =>
      AdminStep(s, Attempt(fails, Debit(s.store, id, amount))).svc
    case UpdateAccount(id, balance, expiry, fails) =>
      AdminStep(s, Attempt(fails, UpdateBalanceAndExpiry(s.store, id, balance, expiry))).svc
    case RemoveAccount(id, dropped, fails) =>
      var d := DropTracked(s, id, dropped);
      if fails then d else d.(store := d.store.(accounts := d.store.accounts - {id}))
  }

  /** A subscription delivers settlements in increasing order above what it asked for. */
  ghost predicate StreamEnabled(w: World, e: StreamEvent) {
    e.InvoiceUpdate? ==> w.floor.Some? && (e.inv.settled ==> e.inv.settleIndex > w.floor.value)
  }

  ghost function StreamNext(s: Service, e: StreamEvent): Service {
    match e
    case InvoiceUpdate(inv, indexFails, creditFails) =>
      ServiceSpec.InvoiceUpdate(s, inv, indexFails, creditFails).svc
    case PaymentUpdate(h, status, value, fee, debitFails, removeFails) =>
      ServiceSpec.PaymentUpdate(s, h, status, value, fee, debitFails, removeFails).svc
    case NotInitiated(h, fails) =>
      RemovePayment(s, h, FAILED, fails).svc
    case StreamError =>
      s.(enabled := false)
  }

  ghost predicate MessageEnabled(w: World, e: MessageEvent) {
    match e
    case AddInvoiceResponse(_, _, _) => IsIdle(w)
    case SendRequest(req, id, _, amount, now) =>
      && IsIdle(w)
      && (req in w.owners ==> w.owners[req] == id)
      && BalanceVerdict(w.svc.store, id, amount, now).None?
    case SendAssociate(_) => w.phase.Serving? && w.phase.handler.Checked?
    case SendRegister => w.phase.Serving? && w.phase.handler.Associated?
    case SendResponse(req, _, _) => IsIdle(w) && req in w.svc.requests && req in w.owners
    case SendFailedResponse(req) => IsIdle(w) && req in w.svc.requests && req in w.owners
    case SendError(req, _) => IsIdle(w) && req in w.svc.requests && req in w.owners
    case HandlerDeletes => w.phase.Serving? && w.phase.handler.Finishing?
    case HandlerRemoves(_) => w.phase.Serving? && w.phase.handler.Removing?
  }

  ghost function MessageNext(w: World, e: MessageEvent): World
    requires MessageEnabled(w, e)
  {
    var s := w.svc;
    match e
    case AddInvoiceResponse(id, h, fails) =>
      w.(svc := AssociateInvoice(s, id, h, fails).svc)
    case SendRequest(req, id, h, amount, _) =>
      w.(phase := Serving(Checked(req, id, h, amount)), owners := w.owners[req := id])
    case SendAssociate(fails) =>
      var c := w.phase.handler;
      var r := AssociatePayment(s, c.id, c.hash, c.amount, fails);
      w.(svc := r.svc, phase := Serving(if r.error.None? then Associated(c.req, c.id, c.hash, c.amount) else Idle))
    case SendRegister =>
      var c := w.phase.handler;
      IdleWorld(w, RegisterValues(s, c.req, RequestValues(c.hash, c.amount)).svc)
    case SendResponse(req, amount, faults) =>
      var r := TrackPayment(s, w.owners[req], s.requests[req].hash, amount, faults);
      w.(svc := r.svc, phase := Serving(if r.error.None? then Finishing(req) else Idle))
    case SendFailedResponse(req) =>
      w.(svc := DeleteValues(s, req), phase := Serving(Removing(s.requests[req].hash)))
    case SendError(req, fails) =>
      var r := PaymentErrored(s, w.owners[req], s.requests[req].hash, fails);
      w.(svc := r.svc, phase := Serving(if r.error.None? then Finishing(req) else Idle))
    case HandlerDeletes =>
      IdleWorld(w, DeleteValues(s, w.phase.handler.req))
    case HandlerRemoves(fails) =>
      IdleWorld(w, RemovePayment(s, w.phase.handler.hash, FAILED, fails).svc)
  }

  ghost predicate LifeEnabled(w: World, e: LifeEvent) {
    match e
    case Restart(mapped, _) => MapsAllInvoices(w.svc.store, mapped)
    case StartTrack(id, h, _) => w.phase.Starting? && (id, h) in w.phase.todo
    case StartSubscribe(_) => w.phase.Starting? && w.phase.todo == map[]
  }

  ghost function LifeNext(w: World, e: LifeEvent): World
    requires LifeEnabled(w, e)
  {
    var s := w.svc;
    match e
    case Restart(mapped, accountsFail) =>
      if accountsFail then
        World(Service(s.store, false, Indexes(0, 0), map[], map[], map[]), Serving(Idle), map[], w.ids, None)
      else
        World(Service(s.store, true, Indexes(0, 0), mapped, map[], map[]), Starting(ToTrack(s.store)), map[], w.ids, None)
    case StartTrack(id, h, faults) =>
      var r := TrackPayment(s, id, h, w.phase.todo[(id, h)], faults);
      if r.error.None? then w.(svc := r.svc, phase := Starting(w.phase.todo - {(id, h)}))
      else IdleWorld(w, r.svc.(enabled := false))
    case StartSubscribe(indexFails) =>
      if indexFails then IdleWorld(w, s.(enabled := false))
      else
        var c := KnownIndexes(s.store);
        IdleWorld(w, s.(current := c)).(floor := Some(c.settle))
  }

  ghost predicate Enabled(w: World, e: Event) {
    match e
    case Admin(a) => AdminEnabled(w, a)
    case Stream(m) => StreamEnabled(w, m)
    case Message(m) => MessageEnabled(w, m)
    case Life(l) => LifeEnabled(w, l)
  }

  ghost function Next(w: World, e: Event): World
    requires Enabled(w, e)
  {
    match e
    case Admin(a) =>
      w.(svc := AdminNext(w.svc, a), ids := if a.NewAccount? then w.ids + {a.id} else w.ids)
    case Stream(m) =>
      w.(svc := StreamNext(w.svc, m),
         floor := if m.InvoiceUpdate? && m.inv.settled then Some(m.inv.settleIndex) else w.floor)
    case Message(m) => MessageNext(w, m)
    case Life(l) => LifeNext(w, l)
  }

  /** A freshly installed system. */
  ghost predicate Initial(w: World) {
    && w.svc == Service(Store(map[], None), true, Indexes(0, 0), map[], map[], map[])
    && w.phase == Starting(map[])
    && w.owners == map[]
    && w.ids == {}
    && w.floor == None
  }

  /** A run: every event is enabled where it happens. */
  ghost predicate IsRun(w: World, es: seq<Event>)
    decreases |es|
  {
    es == [] || (Enabled(w, es[0]) && IsRun(Next(w, es[0]), es[1..]))
  }

  ghost function After(w: World, es: seq<Event>): World
    requires IsRun(w, es)
    decreases |es|
  {
    if es == [] then w else After(Next(w, es[0]), es[1..])
  }

  ghost function Accounts(w: World): map<AccountID, Account> {
    w.svc.store.accounts
  }
}
