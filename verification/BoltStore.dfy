/** The key-value backend: one bucket of bytes holding a serialised account under each
    account ID, and the two invoice indexes under keys of their own. */
module BoltBackend {
  import opened AccountTypes
  import opened Wire
  import opened AccountCodec
  import opened AccountStore

  // "last-add-index" and "last-settle-index"
  const LAST_ADD_INDEX_KEY: Bytes := [108, 97, 115, 116, 45, 97, 100, 100, 45, 105, 110, 100, 101, 120]
  const LAST_SETTLE_INDEX_KEY: Bytes :=
    [108, 97, 115, 116, 45, 115, 101, 116, 116, 108, 101, 45, 105, 110, 100, 101, 120]

  /** A key that names an account, not an index. */
  predicate IsAccountKey(k: Bytes) {
    |k| == 8
  }

  type Bucket = map<Bytes, Bytes>

  /** How the bytes under an account key are read. */
  type Decoder = Bytes -> Option<StoredAccount>

  ghost predicate Holds(decode: Decoder, k: Bytes, v: Bytes) {
    v != [] && decode(v).Some? && decode(v).value.id == k
  }

  ghost predicate WellFormed(decode: Decoder, bucket: Bucket) {
    && (forall k :: k in bucket && IsAccountKey(k) ==> Holds(decode, k, bucket[k]))
    && (forall k :: k in bucket && !IsAccountKey(k) ==>
          (k == LAST_ADD_INDEX_KEY || k == LAST_SETTLE_INDEX_KEY) && |bucket[k]| == 8)
    && (LAST_ADD_INDEX_KEY in bucket <==> LAST_SETTLE_INDEX_KEY in bucket)
  }

  ghost function AccountsIn(decode: Decoder, bucket: Bucket): map<AccountID, Account>
    requires WellFormed(decode, bucket)
  {
    map k: AccountID | k in bucket && IsAccountKey(k) :: decode(bucket[k]).value.account
  }

  ghost function IndexesIn(decode: Decoder, bucket: Bucket): Option<Indexes>
    requires WellFormed(decode, bucket)
  {
    if LAST_ADD_INDEX_KEY in bucket then
      Some(Indexes(Word(bucket[LAST_ADD_INDEX_KEY]), Word(bucket[LAST_SETTLE_INDEX_KEY])))
    else None
  }

  lemma PutReplaces(decode: Decoder, bucket: Bucket, id: AccountID, v: Bytes)
    requires WellFormed(decode, bucket) && Holds(decode, id, v)
    ensures WellFormed(decode, bucket[id := v])
    ensures AccountsIn(decode, bucket[id := v]) == AccountsIn(decode, bucket)[id := decode(v).value.account]
    ensures IndexesIn(decode, bucket[id := v]) == IndexesIn(decode, bucket)
  {
  }

  lemma DeleteRemoves(decode: Decoder, bucket: Bucket, id: AccountID)
    requires WellFormed(decode, bucket)
    ensures WellFormed(decode, bucket - {id})
    ensures AccountsIn(decode, bucket - {id}) == AccountsIn(decode, bucket) - {id}
    ensures IndexesIn(decode, bucket - {id}) == IndexesIn(decode, bucket)
  {
  }

  lemma PutIndexes(decode: Decoder, bucket: Bucket, add: Bytes, settle: Bytes)
    requires WellFormed(decode, bucket) && |add| == 8 && |settle| == 8
    ensures var b := bucket[LAST_ADD_INDEX_KEY := add][LAST_SETTLE_INDEX_KEY := settle];
            && WellFormed(decode, b)
            && AccountsIn(decode, b) == AccountsIn(decode, bucket)
            && IndexesIn(decode, b) == Some(Indexes(Word(add), Word(settle)))
  {
  }

  class BoltStore {
    var bucket: Bucket

    ghost predicate Valid()
      reads this
    {
      WellFormed(DeserializeAccount, bucket)
    }

    ghost function Contents(): Store
      reads this
      requires Valid()
    {
      Store(AccountsIn(DeserializeAccount, bucket), IndexesIn(DeserializeAccount, bucket))
    }

    constructor ()
      ensures Valid() && Contents() == Store(map[], None)
    {
      bucket := map[];
    }

    method GetAccount(id: AccountID) returns (r: Result<StoredAccount>)
      requires Valid()
      ensures r.Ok? <==> id in Contents().accounts
      ensures r.Ok? ==> r.value.id == id && r.value.account == Contents().accounts[id]
      ensures r.Err? ==> r.error == NotFound
    {
      if id !in bucket || bucket[id] == [] {
        return Err(NotFound);
      }
      r := Ok(DeserializeAccount(bucket[id]).value);
    }

    method PutAccount(x: StoredAccount)
      requires Valid() && Fits(x.account)
      modifies this
      ensures Valid() && Contents() == Replace(old(Contents()), x.id, x.account)
    {
      var bytes := SerializeAccount(x);
      PutReplaces(DeserializeAccount, bucket, x.id, bytes);
      bucket := bucket[x.id := bytes];
    }

    /** Read, modify, write, in one transaction. */
    method UpdateAccount(id: AccountID, update: Account -> Result<Account>, now: Int64) returns (err: Option<Error>)
      requires Valid()
      requires id in Contents().accounts && update(Contents().accounts[id]).Ok? ==>
                 Fits(update(Contents().accounts[id]).value)
      modifies this
      ensures Valid()
      ensures var st := old(Contents());
              if id !in st.accounts then err == Some(NotFound) && Contents() == st
              else
                match update(st.accounts[id])
                case Err(e) => err == Some(e) && Contents() == st
                case Ok(a) => err == None && Contents() == Replace(st, id, a)
    {
      var x := GetAccount(id);
      if x.Err? {
        return Some(x.error);
      }
      var a := update(x.value.account);
      if a.Err? {
        return Some(a.error);
      }
      PutAccount(x.value.(account := a.value, lastUpdate := now));
      err := None;
    }

    method Accounts() returns (r: map<AccountID, Account>)
      requires Valid()
      ensures r == Contents().accounts
    {
      r := map[];
      var todo := bucket.Keys;
      while todo != {}
        invariant todo <= bucket.Keys
        invariant forall k :: k in r <==> k in bucket && k !in todo && IsAccountKey(k)
        invariant forall k :: k in r ==> r[k] == Contents().accounts[k]
        decreases todo
      {
        var k :| k in todo;
        todo := todo - {k};
        if k != LAST_ADD_INDEX_KEY && k != LAST_SETTLE_INDEX_KEY {
          var x := DeserializeAccount(bucket[k]).value;
          r := r[x.id := x.account];
        }
      }
    }

    method UniqueRandomAccountID(draws: seq<AccountID>) returns (id: Option<AccountID>)
      requires Valid()
      ensures id == FirstFree(Contents().accounts.Keys, draws)
    {
      var i := 0;
      while i < |draws|
        invariant 0 <= i <= |draws|
        invariant FirstFree(Contents().accounts.Keys, draws[i..]) == FirstFree(Contents().accounts.Keys, draws)
      {
        if draws[i] !in bucket {
          return Some(draws[i]);
        }
        assert draws[i..][1..] == draws[i + 1..];
        i := i + 1;
      }
      id := None;
    }

    method LabelInUse(name: Bytes) returns (taken: bool)
      requires Valid()
      ensures taken <==> LabelTaken(Contents(), name)
    {
      var existing := Accounts();
      var todo := existing.Keys;
      while todo != {}
        invariant todo <= existing.Keys
        invariant forall id :: id in existing && id !in todo ==> existing[id].name != name
        decreases todo
      {
        var id :| id in todo;
        if existing[id].name == name {
          return true;
        }
        todo := todo - {id};
      }
      taken := false;
    }

    method NewAccount(balance: Msat, expiry: Option<Int64>, name: Bytes, draws: seq<AccountID>, now: Int64)
      returns (r: Result<AccountID>)
      requires Valid() && |name| <= MAX_INT64
      modifies this
      ensures Valid()
      ensures match AccountStore.NewAccount(old(Contents()), balance, expiry, name, draws)
              case Ok((st, id)) => r == Ok(id) && Contents() == st
              case Err(e) => r == Err(e) && Contents() == old(Contents())
    {
      if |name| > 0 {
        if LooksLikeID(name) {
          return Err(CreateRefused);
        }
        var taken := LabelInUse(name);
        if taken {
          return Err(CreateRefused);
        }
      }
      var id := UniqueRandomAccountID(draws);
      if id.None? {
        return Err(CreateRefused);
      }
      PutAccount(StoredAccount(id.value, 0, now, FreshAccount(balance, expiry, name)));
      r := Ok(id.value);
    }

    method UpdateAccountBalanceAndExpiry(id: AccountID, balance: Option<Int64>, expiry: Option<Option<Int64>>, now: Int64)
      returns (err: Option<Error>)
      requires Valid() && HasRoom(Contents(), id)
      modifies this
      ensures Valid() && Effect(Contents(), Answer(err)) == Exec(old(Contents()), Update(id, balance, expiry))
    {
      err := UpdateAccount(id, (a: Account) =>
        var a1 := if balance.Some? then a.(balance := balance.value) else a;
        Ok(if expiry.Some? then a1.(expiry := expiry.value) else a1), now);
    }

    method AddAccountInvoice(id: AccountID, h: Hash, now: Int64) returns (err: Option<Error>)
      requires Valid() && HasRoom(Contents(), id)
      modifies this
      ensures Valid() && Effect(Contents(), Answer(err)) == Exec(old(Contents()), Invoice(id, h))
    {
      err := UpdateAccount(id, (a: Account) => Ok(a.(invoices := a.invoices + {h})), now);
    }

    method CreditAccount(id: AccountID, amount: Msat, now: Int64) returns (err: Option<Error>)
      requires Valid() && HasRoom(Contents(), id)
      modifies this
      ensures Valid() && Effect(Contents(), Answer(err)) == Exec(old(Contents()), CreditBy(id, amount))
    {
      err := UpdateAccount(id, (a: Account) => CreditUpdate(a, amount), now);
    }

    method DebitAccount(id: AccountID, amount: Msat, now: Int64) returns (err: Option<Error>)
      requires Valid() && HasRoom(Contents(), id)
      modifies this
      ensures Valid() && Effect(Contents(), Answer(err)) == Exec(old(Contents()), DebitBy(id, amount))
    {
      if amount > MAX_INT64 {
        return Some(AmountTooLarge);
      }
      err := UpdateAccount(id, (a: Account) => DebitUpdate(a, amount), now);
    }

    method UpsertAccountPayment(id: AccountID, h: Hash, amount: Msat, status: Status, opts: UpsertOptions, now: Int64)
      returns (err: Option<Error>)
      requires Valid() && HasRoom(Contents(), id)
      modifies this
      ensures Valid() && Effect(Contents(), Answer(err)) == Exec(old(Contents()), Upsert(id, h, amount, status, opts))
    {
      err := UpdateAccount(id, (a: Account) => UpsertUpdate(a, h, amount, status, opts), now);
    }

    method DeleteAccountPayment(id: AccountID, h: Hash, now: Int64) returns (err: Option<Error>)
      requires Valid() && HasRoom(Contents(), id)
      modifies this
      ensures Valid() && Effect(Contents(), Answer(err)) == Exec(old(Contents()), Delete(id, h))
    {
      ghost var st := Contents();
      if id in st.accounts {
        var rest := st.accounts[id].payments - {h};
        assert rest.Keys <= st.accounts[id].payments.Keys;
        Smaller(rest.Keys, st.accounts[id].payments.Keys);
      }
      err := UpdateAccount(id, (a: Account) =>
        if h !in a.payments then Err(NotAssociated) else Ok(a.(payments := a.payments - {h})), now);
    }

    method RemoveAccount(id: AccountID) returns (err: Option<Error>)
      requires Valid()
      modifies this
      ensures Valid()
      ensures Effect(Contents(), Answer(err)) == Exec(old(Contents()), Remove(id))
    {
      if id !in bucket || bucket[id] == [] {
        return Some(NotFound);
      }
      DeleteRemoves(DeserializeAccount, bucket, id);
      bucket := bucket - {id};
      err := None;
    }

    method StoreLastIndexes(add: Uint64, settle: Uint64)
      requires Valid()
      modifies this
      ensures Valid() && Contents() == AccountStore.StoreLastIndexes(old(Contents()), add, settle)
    {
      PutIndexes(DeserializeAccount, bucket, BigEndian(add, 8), BigEndian(settle, 8));
      bucket := bucket[LAST_ADD_INDEX_KEY := BigEndian(add, 8)];
      bucket := bucket[LAST_SETTLE_INDEX_KEY := BigEndian(settle, 8)];
      WordOfBigEndian(add);
      WordOfBigEndian(settle);
    }

    method LastIndexes() returns (r: Result<Indexes>)
      requires Valid()
      ensures r == if Contents().indexes.Some? then Ok(Contents().indexes.value) else Err(NoIndexKnown)
    {
      if LAST_ADD_INDEX_KEY !in bucket || LAST_SETTLE_INDEX_KEY !in bucket {
        return Err(NoIndexKnown);
      }
      r := Ok(Indexes(Word(bucket[LAST_ADD_INDEX_KEY]), Word(bucket[LAST_SETTLE_INDEX_KEY])));
    }

    /** Every call of the Store interface, refining its abstract effect. */
    method Execute(c: Call, now: Int64) returns (reply: Reply)
      requires Valid() && Room(Contents(), 1) && CallFits(c)
      modifies this
      ensures Valid() && Effect(Contents(), reply) == Exec(old(Contents()), c)
    {
      var err: Option<Error>;
      match c {
        case New(balance, expiry, name, draws) =>
          var r := NewAccount(balance, expiry, name, draws, now);
          return if r.Ok? then Created(r.value) else Failed(r.error);
        case Get(id) =>
          var r := GetAccount(id);
          return if r.Ok? then Found(r.value.account) else Failed(r.error);
        case List =>
          var r := Accounts();
          return Listed(r);
        case Update(id, balance, expiry) => err := UpdateAccountBalanceAndExpiry(id, balance, expiry, now);
        case Invoice(id, h) => err := AddAccountInvoice(id, h, now);
        case CreditBy(id, amount) => err := CreditAccount(id, amount, now);
        case DebitBy(id, amount) => err := DebitAccount(id, amount, now);
        case Upsert(id, h, amount, status, opts) => err := UpsertAccountPayment(id, h, amount, status, opts, now);
        case Delete(id, h) => err := DeleteAccountPayment(id, h, now);
        case Remove(id) => err := RemoveAccount(id);
        case SetIndexes(add, settle) => StoreLastIndexes(add, settle); err := None;
        case GetIndexes =>
          var r := LastIndexes();
          return if r.Ok? then FoundIndexes(r.value) else Failed(r.error);
      }
      reply := Answer(err);
    }
  }

  // ---- The updates handed to updateAccount, as they are written ----

  function CreditUpdate(a: Account, amount: Msat): (r: Result<Account>)
    ensures r == CreditOf(a, amount)
  {
    if amount > MAX_INT64 then Err(AmountTooLarge)
    else Ok(a.(balance := AddWord(a.balance, amount)))
  }

  function DebitUpdate(a: Account, amount: Msat): (r: Result<Account>)
    ensures r == DebitOf(a, amount)
  {
    if SubtractWord(a.balance, amount) < 0 then Err(WouldOverdraw)
    else Ok(a.(balance := SubtractWord(a.balance, amount)))
  }

  /** The checks against the known entry, then the entry, then the debit. */
  function UpsertUpdate(a: Account, h: Hash, amount: Msat, status: Status, opts: UpsertOptions): (r: Result<Account>)
    ensures r == UpsertAccount(a, h, amount, status, opts)
  {
    var known := h in a.payments;
    if known && opts.errIfAlreadySucceeded && SuccessState(a.payments[h].status) then Err(AlreadySucceeded)
    else if known && opts.errIfAlreadyPending && a.payments[h].status != FAILED then Err(AlreadyPending)
    else if !known && opts.errIfUnknown then Err(NotAssociated)
    else
      var fullAmount := if known && opts.usePendingAmount then a.payments[h].fullAmount else amount;
      var stored := a.(payments := a.payments[h := PaymentEntry(status, fullAmount)]);
      Ok(if opts.debitAccount then stored.(balance := SubtractWord(stored.balance, fullAmount)) else stored)
  }

  function Word(b: Bytes): Uint64
    requires |b| == 8
  {
    FromBigEndianBound(b);
    Widths();
    FromBigEndian(b)
  }

  lemma WordOfBigEndian(n: Uint64)
    ensures Word(BigEndian(n, 8)) == n
  {
    Widths();
    BigEndianRoundTrip(n, 8);
  }

  lemma Smaller(s: set<Hash>, t: set<Hash>)
    requires s <= t
    ensures |s| <= |t|
  {
    if s != {} {
      var x :| x in s;
      Smaller(s - {x}, t - {x});
    }
  }

  /** The maps and strings of Go are shorter than 2^63: room for n more entries. */
  ghost predicate RoomIn(a: Account, n: nat) {
    |a.invoices| + n <= MAX_INT64 && |a.payments| + n <= MAX_INT64 && |a.name| <= MAX_INT64
  }

  ghost predicate Room(st: Store, n: nat) {
    forall id :: id in st.accounts ==> RoomIn(st.accounts[id], n)
  }

  ghost predicate HasRoom(st: Store, id: AccountID) {
    id in st.accounts ==> RoomIn(st.accounts[id], 1)
  }

  ghost predicate CallFits(c: Call) {
    c.New? ==> |c.name| <= MAX_INT64
  }
}
