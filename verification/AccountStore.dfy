/** The account store as its callers see it: one finite map of accounts and the
    last invoice indexes. Both storage backends are proved against this. */
module AccountStore {
  import opened AccountTypes

  datatype Indexes = Indexes(add: Uint64, settle: Uint64)

  datatype Store = Store(accounts: map<AccountID, Account>, indexes: Option<Indexes>)

  /** The functional options of UpsertAccountPayment. */
  datatype UpsertOptions = UpsertOptions(
    debitAccount: bool,
    errIfAlreadyPending: bool,
    usePendingAmount: bool,
    errIfAlreadySucceeded: bool,
    errIfUnknown: bool)

  const NO_OPTIONS := UpsertOptions(false, false, false, false, false)

  function Replace(st: Store, id: AccountID, a: Account): Store {
    st.(accounts := st.accounts[id := a])
  }

  predicate HexDigit(b: Byte) {
    48 <= b <= 57 || 65 <= b <= 70 || 97 <= b <= 102
  }

  /** A label that decodes as hex and has the length of an encoded account ID. */
  predicate LooksLikeID(name: seq<Byte>) {
    |name| == 16 && forall i :: 0 <= i < |name| ==> HexDigit(name[i])
  }

  predicate LabelTaken(st: Store, name: seq<Byte>) {
    exists id :: id in st.accounts && st.accounts[id].name == name
  }

  predicate LabelAllowed(st: Store, name: seq<Byte>) {
    name == [] || (!LooksLikeID(name) && !LabelTaken(st, name))
  }

  function FreshAccount(balance: Msat, expiry: Option<Int64>, name: seq<Byte>): Account {
    Account(balance, ToInt64(balance), expiry, {}, map[], name)
  }

  /** The first random draw that names no account yet. */
  function FirstFree(used: set<AccountID>, draws: seq<AccountID>): (r: Option<AccountID>)
    ensures r.Some? ==> r.value in draws && r.value !in used
    ensures r.None? <==> forall i :: 0 <= i < |draws| ==> draws[i] in used
  {
    if draws == [] then None
    else if draws[0] !in used then Some(draws[0])
    else
      assert draws == [draws[0]] + draws[1..];
      FirstFree(used, draws[1..])
  }

  function NewAccount(st: Store, balance: Msat, expiry: Option<Int64>, name: seq<Byte>,
                      draws: seq<AccountID>): Result<(Store, AccountID)> {
    match FirstFree(st.accounts.Keys, draws)
    case Some(id) =>
      if LabelAllowed(st, name) then
        Ok((Replace(st, id, FreshAccount(balance, expiry, name)), id))
      else
        Err(CreateRefused)
    case None => Err(CreateRefused)
  }

  function UpdateBalanceAndExpiry(st: Store, id: AccountID, balance: Option<Int64>,
                                  expiry: Option<Option<Int64>>): Result<Store> {
    if id !in st.accounts then Err(NotFound)
    else
      var a := st.accounts[id];
      var a1 := if balance.Some? then a.(balance := balance.value) else a;
      var a2 := if expiry.Some? then a1.(expiry := expiry.value) else a1;
      Ok(Replace(st, id, a2))
  }

  function AddInvoice(st: Store, id: AccountID, h: Hash): Result<Store> {
    if id !in st.accounts then Err(NotFound)
    else
      var a := st.accounts[id];
      Ok(Replace(st, id, a.(invoices := a.invoices + {h})))
  }

  function CreditOf(a: Account, amount: Msat): Result<Account> {
    if amount > MAX_INT64 then Err(AmountTooLarge) else Ok(a.(balance := ToInt64(a.balance + amount)))
  }

  function Credit(st: Store, id: AccountID, amount: Msat): Result<Store> {
    if id !in st.accounts then Err(NotFound)
    else
      match CreditOf(st.accounts[id], amount)
      case Err(e) => Err(e)
      case Ok(a) => Ok(Replace(st, id, a))
  }

  function DebitOf(a: Account, amount: Msat): Result<Account> {
    if ToInt64(a.balance - amount) < 0 then Err(WouldOverdraw) else Ok(a.(balance := ToInt64(a.balance - amount)))
  }

  function Debit(st: Store, id: AccountID, amount: Msat): Result<Store> {
    if amount > MAX_INT64 then Err(AmountTooLarge)
    else if id !in st.accounts then Err(NotFound)
    else
      match DebitOf(st.accounts[id], amount)
      case Err(e) => Err(e)
      case Ok(a) => Ok(Replace(st, id, a))
  }

  /** What an upsert refuses, given the entry already on record. */
  function UpsertRefusal(prior: Option<PaymentEntry>, opts: UpsertOptions): Option<Error> {
    match prior
    case Some(e) =>
      if opts.errIfAlreadySucceeded && SuccessState(e.status) then Some(AlreadySucceeded)
      else if opts.errIfAlreadyPending && e.status != FAILED then Some(AlreadyPending)
      else None
    case None =>
      if opts.errIfUnknown then Some(NotAssociated) else None
  }

  function EntryOf(a: Account, h: Hash): Option<PaymentEntry> {
    if h in a.payments then Some(a.payments[h]) else None
  }

  function UpsertAccount(a: Account, h: Hash, amount: Msat, status: Status, opts: UpsertOptions): Result<Account> {
    var prior := EntryOf(a, h);
    match UpsertRefusal(prior, opts)
    case Some(e) => Err(e)
    case None =>
      var full := if prior.Some? && opts.usePendingAmount then prior.value.fullAmount else amount;
      var a1 := a.(payments := a.payments[h := PaymentEntry(status, full)]);
      Ok(if opts.debitAccount then a1.(balance := ToInt64(a.balance - full)) else a1)
  }

  function UpsertPayment(st: Store, id: AccountID, h: Hash, amount: Msat, status: Status,
                         opts: UpsertOptions): Result<Store> {
    if id !in st.accounts then Err(NotFound)
    else
      match UpsertAccount(st.accounts[id], h, amount, status, opts)
      case Err(e) => Err(e)
      case Ok(a) => Ok(Replace(st, id, a))
  }

  function DeletePayment(st: Store, id: AccountID, h: Hash): Result<Store> {
    if id !in st.accounts then Err(NotFound)
    else
      var a := st.accounts[id];
      if h !in a.payments then Err(NotAssociated)
      else Ok(Replace(st, id, a.(payments := a.payments - {h})))
  }

  function RemoveAccount(st: Store, id: AccountID): Result<Store> {
    if id !in st.accounts then Err(NotFound)
    else Ok(st.(accounts := st.accounts - {id}))
  }

  function StoreLastIndexes(st: Store, add: Uint64, settle: Uint64): Store {
    st.(indexes := Some(Indexes(add, settle)))
  }

  /** One call of the Store interface; draws are the random IDs NewAccount would try. */
  datatype Call =
    | New(balance: Msat, expiry: Option<Int64>, name: seq<Byte>, draws: seq<AccountID>)
    | Get(id: AccountID)
    | List
    | Update(id: AccountID, newBalance: Option<Int64>, newExpiry: Option<Option<Int64>>)
    | Invoice(id: AccountID, hash: Hash)
    | CreditBy(id: AccountID, amount: Msat)
    | DebitBy(id: AccountID, amount: Msat)
    | Upsert(id: AccountID, hash: Hash, amount: Msat, status: Status, opts: UpsertOptions)
    | Delete(id: AccountID, hash: Hash)
    | Remove(id: AccountID)
    | SetIndexes(add: Uint64, settle: Uint64)
    | GetIndexes

  datatype Reply =
    | Done
    | Created(id: AccountID)
    | Found(account: Account)
    | Listed(accounts: map<AccountID, Account>)
    | FoundIndexes(indexes: Indexes)
    | Failed(error: Error)

  datatype Effect = Effect(store: Store, reply: Reply)

  function Answer(err: Option<Error>): Reply {
    if err.Some? then Failed(err.value) else Done
  }

  function Applied(st: Store, r: Result<Store>): Effect {
    match r
    case Ok(st') => Effect(st', Done)
    case Err(e) => Effect(st, Failed(e))
  }

  /** What the Store interface promises for one call. */
  function Exec(st: Store, c: Call): Effect {
    match c
    case New(balance, expiry, name, draws) =>
      (match NewAccount(st, balance, expiry, name, draws)
       case Ok((st', id)) => Effect(st', Created(id))
       case Err(e) => Effect(st, Failed(e)))
    case Get(id) => Effect(st, if id in st.accounts then Found(st.accounts[id]) else Failed(NotFound))
    case List => Effect(st, Listed(st.accounts))
    case Update(id, balance, expiry) => Applied(st, UpdateBalanceAndExpiry(st, id, balance, expiry))
    case Invoice(id, h) => Applied(st, AddInvoice(st, id, h))
    case CreditBy(id, amount) => Applied(st, Credit(st, id, amount))
    case DebitBy(id, amount) => Applied(st, Debit(st, id, amount))
    case Upsert(id, h, amount, status, opts) => Applied(st, UpsertPayment(st, id, h, amount, status, opts))
    case Delete(id, h) => Applied(st, DeletePayment(st, id, h))
    case Remove(id) => Applied(st, RemoveAccount(st, id))
    case SetIndexes(add, settle) => Effect(StoreLastIndexes(st, add, settle), Done)
    case GetIndexes => Effect(st, if st.indexes.Some? then FoundIndexes(st.indexes.value) else Failed(NoIndexKnown))
  }

  /** The replies to a whole sequence of calls. */
  function ExecAll(st: Store, calls: seq<Call>): seq<Reply>
    decreases |calls|
  {
    if calls == [] then [] else [Exec(st, calls[0]).reply] + ExecAll(Exec(st, calls[0]).store, calls[1..])
  }

  function StoreAfter(st: Store, calls: seq<Call>): Store
    decreases |calls|
  {
    if calls == [] then st else StoreAfter(Exec(st, calls[0]).store, calls[1..])
  }
}
