/** The SQL backend: account, invoice and payment rows keyed by a row number, with
    the account ID kept as a signed integer alias. Deleting an account row deletes
    the rows that refer to it, and payment rows are upserted by (account, hash). */
module SqlBackend {
  import opened AccountTypes
  import opened Wire
  import opened AccountStore

  datatype AccountRow = AccountRow(alias: Int64, name: Option<Bytes>, initial: Int64, current: Int64, expiry: Option<Int64>)

  datatype PaymentRow = PaymentRow(status: Status, amount: Int64)

  /** The names "last_add_index" and "last_settle_index" of the indices table. */
  datatype IndexName = LastAddIndex | LastSettleIndex

  datatype Tables = Tables(
    accounts: map<nat, AccountRow>,
    invoices: set<(nat, Hash)>,
    payments: map<(nat, Hash), PaymentRow>,
    indices: map<IndexName, Int64>,
    nextRow: nat)

  // ---- Account IDs as integers ----

  function AliasOf(id: AccountID): Int64 {
    ToInt64(FromBigEndian(id))
  }

  function FromAlias(alias: Int64): AccountID {
    BigEndian(ToUint64(alias), 8)
  }

  /** The conversion between account IDs and int64 aliases is a bijection. */
  lemma AliasRoundTrip(id: AccountID, alias: Int64)
    ensures FromAlias(AliasOf(id)) == id
    ensures AliasOf(FromAlias(alias)) == alias
  {
    Widths();
    FromBigEndianBound(id);
    WordRoundTrip(FromBigEndian(id), alias);
    BigEndianOfBytes(id);
    BigEndianRoundTrip(ToUint64(alias), 8);
  }

  // ---- The account behind a row ----

  function InvoicesOf(t: Tables, r: nat): set<Hash> {
    set p | p in t.invoices && p.0 == r :: p.1
  }

  function HashesOf(t: Tables, r: nat): set<Hash> {
    set p | p in t.payments.Keys && p.0 == r :: p.1
  }

  function PaymentsOf(t: Tables, r: nat): map<Hash, PaymentEntry> {
    map h | h in HashesOf(t, r) :: PaymentEntry(t.payments[(r, h)].status, ToUint64(t.payments[(r, h)].amount))
  }

  function AccountOfRow(row: AccountRow): Account {
    Account(ToUint64(row.initial), row.current, row.expiry, {}, map[], if row.name.Some? then row.name.value else [])
  }

  function Marshal(t: Tables, r: nat): Account
    requires r in t.accounts
  {
    AccountOfRow(t.accounts[r]).(invoices := InvoicesOf(t, r), payments := PaymentsOf(t, r))
  }

  /** Which row holds which account. */
  datatype RowIndex = RowIndex(rows: map<AccountID, nat>, ids: map<nat, AccountID>)

  ghost predicate Inverse(x: RowIndex) {
    && (forall id :: id in x.rows ==> x.rows[id] in x.ids && x.ids[x.rows[id]] == id)
    && (forall r :: r in x.ids ==> x.ids[r] in x.rows && x.rows[x.ids[r]] == r)
  }

  /** Each account ID has exactly one row, and rows refer to existing accounts only. */
  ghost predicate WellFormed(t: Tables, x: RowIndex) {
    && Inverse(x) && x.ids.Keys == t.accounts.Keys
    && (forall r :: r in t.accounts ==> r < t.nextRow)
    && (forall r {:trigger t.accounts[r].alias} :: r in t.accounts ==> t.accounts[r].alias == AliasOf(x.ids[r]))
    && (forall r :: r in t.accounts && t.accounts[r].name.Some? ==> t.accounts[r].name.value != [])
    && ForeignKeys(t)
    && (LastAddIndex in t.indices <==> LastSettleIndex in t.indices)
  }

  ghost predicate ForeignKeys(t: Tables) {
    && (forall p :: p in t.invoices ==> p.0 in t.accounts)
    && (forall p :: p in t.payments ==> p.0 in t.accounts)
  }

  ghost function AccountsIn(t: Tables, x: RowIndex): map<AccountID, Account>
    requires Inverse(x) && x.ids.Keys == t.accounts.Keys
  {
    View(x.rows, Marshalled(t))
  }

  ghost function IndexesIn(t: Tables): Option<Indexes>
    requires LastAddIndex in t.indices <==> LastSettleIndex in t.indices
  {
    if LastAddIndex in t.indices then
      Some(Indexes(ToUint64(t.indices[LastAddIndex]), ToUint64(t.indices[LastSettleIndex])))
    else None
  }

  /** The same rows under the same aliases and labels. */
  ghost predicate SameShape(t: Tables, t': Tables) {
    && t'.accounts.Keys == t.accounts.Keys && t'.nextRow == t.nextRow && t'.indices == t.indices
    && (forall q {:trigger t'.accounts[q].alias} :: q in t.accounts ==> t'.accounts[q].alias == t.accounts[q].alias)
    && (forall q {:trigger t'.accounts[q].name} :: q in t.accounts ==> t'.accounts[q].name == t.accounts[q].name)
    && ForeignKeys(t')
  }

  /** Row r now stands for account a, and nothing else changes. */
  ghost predicate RowBecomes(t: Tables, t': Tables, r: nat, a: Account) {
    SameShape(t, t') && Marshalled(t') == Marshalled(t)[r := a]
  }

  lemma SameShapeKeeps(t: Tables, t': Tables, x: RowIndex)
    requires WellFormed(t, x) && SameShape(t, t')
    ensures WellFormed(t', x)
  {
  }

  /** Looking rows up by account ID: changing what one row gives changes one account. */
  ghost function View<T>(rows: map<AccountID, nat>, f: map<nat, T>): map<AccountID, T>
    requires forall id :: id in rows ==> rows[id] in f
  {
    map id | id in rows :: f[rows[id]]
  }

  lemma ViewChange<T>(x: RowIndex, f: map<nat, T>, id: AccountID, v: T)
    requires Inverse(x) && f.Keys == x.ids.Keys && id in x.rows
    ensures View(x.rows, f[x.rows[id] := v]) == View(x.rows, f)[id := v]
  {
  }

  ghost function Marshalled(t: Tables): map<nat, Account> {
    map r | r in t.accounts :: Marshal(t, r)
  }

  lemma MarshalledChange(t: Tables, t': Tables, r: nat, a: Account)
    requires t'.accounts.Keys == t.accounts.Keys && r in t.accounts && Marshal(t', r) == a
    requires forall q :: q in t.accounts && q != r ==>
               t'.accounts[q] == t.accounts[q] && InvoicesOf(t', q) == InvoicesOf(t, q) && PaymentsOf(t', q) == PaymentsOf(t, q)
    ensures Marshalled(t') == Marshalled(t)[r := a]
  {
    var m, m' := Marshalled(t)[r := a], Marshalled(t');
    assert m.Keys == m'.Keys;
    forall q | q in m
      ensures m'[q] == m[q]
    {
      if q != r {
        assert Marshal(t', q) == Marshal(t, q);
      }
    }
  }

  /** A statement that changes what one row stands for replaces that one account. */
  lemma RowChange(t: Tables, t': Tables, x: RowIndex, id: AccountID, a: Account)
    requires WellFormed(t, x) && id in x.rows && RowBecomes(t, t', x.rows[id], a)
    ensures WellFormed(t', x)
    ensures AccountsIn(t', x) == AccountsIn(t, x)[id := a]
  {
    SameShapeKeeps(t, t', x);
    ViewChange(x, Marshalled(t), id, a);
  }

  // ---- Single statements ----

  function SetBalance(t: Tables, r: nat, balance: Int64): Tables
    requires r in t.accounts
  {
    t.(accounts := t.accounts[r := t.accounts[r].(current := balance)])
  }

  function SetExpiry(t: Tables, r: nat, expiry: Option<Int64>): Tables
    requires r in t.accounts
  {
    t.(accounts := t.accounts[r := t.accounts[r].(expiry := expiry)])
  }

  function InsertInvoice(t: Tables, r: nat, h: Hash): Tables {
    t.(invoices := t.invoices + {(r, h)})
  }

  function UpsertRow(t: Tables, r: nat, h: Hash, row: PaymentRow): Tables {
    t.(payments := t.payments[(r, h) := row])
  }

  function DeleteRow(t: Tables, r: nat, h: Hash): Tables {
    t.(payments := t.payments - {(r, h)})
  }

  /** Deleting an account row cascades to its invoice and payment rows. */
  function DeleteAccountRow(t: Tables, r: nat): Tables {
    t.(accounts := t.accounts - {r},
       invoices := (set p | p in t.invoices && p.0 != r),
       payments := map p | p in t.payments && p.0 != r :: t.payments[p])
  }

  lemma SameChildren(t: Tables, t': Tables)
    requires t'.invoices == t.invoices && t'.payments == t.payments
    ensures forall q :: InvoicesOf(t', q) == InvoicesOf(t, q) && PaymentsOf(t', q) == PaymentsOf(t, q)
  {
    assert forall q :: HashesOf(t', q) == HashesOf(t, q);
  }

  lemma BalanceSet(t: Tables, r: nat, balance: Int64)
    requires r in t.accounts && ForeignKeys(t)
    ensures RowBecomes(t, SetBalance(t, r, balance), r, Marshal(t, r).(balance := balance))
  {
    var t' := SetBalance(t, r, balance);
    SameChildren(t, t');
    MarshalledChange(t, t', r, Marshal(t, r).(balance := balance));
  }

  lemma ExpirySet(t: Tables, r: nat, expiry: Option<Int64>)
    requires r in t.accounts && ForeignKeys(t)
    ensures RowBecomes(t, SetExpiry(t, r, expiry), r, Marshal(t, r).(expiry := expiry))
  {
    var t' := SetExpiry(t, r, expiry);
    SameChildren(t, t');
    MarshalledChange(t, t', r, Marshal(t, r).(expiry := expiry));
  }

  lemma InvoiceInserted(t: Tables, r: nat, h: Hash)
    requires r in t.accounts && ForeignKeys(t)
    ensures RowBecomes(t, InsertInvoice(t, r, h), r, Marshal(t, r).(invoices := InvoicesOf(t, r) + {h}))
  {
    var t' := InsertInvoice(t, r, h);
    assert forall q :: InvoicesOf(t', q) == if q == r then InvoicesOf(t, q) + {h} else InvoicesOf(t, q);
    assert forall q :: PaymentsOf(t', q) == PaymentsOf(t, q);
    MarshalledChange(t, t', r, Marshal(t, r).(invoices := InvoicesOf(t, r) + {h}));
  }

  lemma HashUpserted(t: Tables, r: nat, h: Hash, row: PaymentRow)
    ensures PaymentsOf(UpsertRow(t, r, h, row), r) == PaymentsOf(t, r)[h := PaymentEntry(row.status, ToUint64(row.amount))]
    ensures forall q :: q != r ==> PaymentsOf(UpsertRow(t, r, h, row), q) == PaymentsOf(t, q)
  {
    var t' := UpsertRow(t, r, h, row);
    assert HashesOf(t', r) == HashesOf(t, r) + {h};
    forall q | q != r
      ensures PaymentsOf(t', q) == PaymentsOf(t, q)
    {
      assert HashesOf(t', q) == HashesOf(t, q);
    }
  }

  lemma PaymentUpserted(t: Tables, r: nat, h: Hash, row: PaymentRow)
    requires r in t.accounts && ForeignKeys(t)
    ensures RowBecomes(t, UpsertRow(t, r, h, row), r,
                       Marshal(t, r).(payments := PaymentsOf(t, r)[h := PaymentEntry(row.status, ToUint64(row.amount))]))
  {
    HashUpserted(t, r, h, row);
    var t' := UpsertRow(t, r, h, row);
    assert forall q :: InvoicesOf(t', q) == InvoicesOf(t, q);
    MarshalledChange(t, t', r, Marshal(t, r).(payments := PaymentsOf(t', r)));
  }

  lemma PaymentDeleted(t: Tables, r: nat, h: Hash)
    requires r in t.accounts && ForeignKeys(t)
    ensures RowBecomes(t, DeleteRow(t, r, h), r, Marshal(t, r).(payments := PaymentsOf(t, r) - {h}))
  {
    var t' := DeleteRow(t, r, h);
    assert HashesOf(t', r) == HashesOf(t, r) - {h};
    assert PaymentsOf(t', r) == PaymentsOf(t, r) - {h};
    forall q | q != r
      ensures PaymentsOf(t', q) == PaymentsOf(t, q)
    {
      assert HashesOf(t', q) == HashesOf(t, q);
    }
    assert forall q :: InvoicesOf(t', q) == InvoicesOf(t, q);
    MarshalledChange(t, t', r, Marshal(t, r).(payments := PaymentsOf(t, r) - {h}));
  }

  ghost function IndexWithout(x: RowIndex, id: AccountID): RowIndex
    requires id in x.rows
  {
    RowIndex(x.rows - {id}, x.ids - {x.rows[id]})
  }

  ghost function IndexWith(x: RowIndex, id: AccountID, r: nat): RowIndex {
    RowIndex(x.rows[id := r], x.ids[r := id])
  }

  lemma ViewWithout<T>(x: RowIndex, f: map<nat, T>, g: map<nat, T>, id: AccountID)
    requires Inverse(x) && f.Keys == x.ids.Keys && id in x.rows && g == f - {x.rows[id]}
    ensures Inverse(IndexWithout(x, id)) && IndexWithout(x, id).ids.Keys == g.Keys
    ensures View(IndexWithout(x, id).rows, g) == View(x.rows, f) - {id}
  {
  }

  lemma ViewWith<T>(x: RowIndex, f: map<nat, T>, id: AccountID, r: nat, v: T)
    requires Inverse(x) && f.Keys == x.ids.Keys && id !in x.rows && r !in f
    ensures Inverse(IndexWith(x, id, r))
    ensures View(IndexWith(x, id, r).rows, f[r := v]) == View(x.rows, f)[id := v]
  {
  }

  lemma CascadeKeepsOthers(t: Tables, r: nat)
    ensures Marshalled(DeleteAccountRow(t, r)) == Marshalled(t) - {r}
  {
    var t' := DeleteAccountRow(t, r);
    forall q | q in t'.accounts
      ensures Marshal(t', q) == Marshal(t, q)
    {
      assert InvoicesOf(t', q) == InvoicesOf(t, q);
      assert HashesOf(t', q) == HashesOf(t, q);
      assert PaymentsOf(t', q) == PaymentsOf(t, q);
    }
  }

  lemma ShapeDeleted(t: Tables, x: RowIndex, id: AccountID)
    requires WellFormed(t, x) && id in x.rows && Inverse(IndexWithout(x, id))
    ensures WellFormed(DeleteAccountRow(t, x.rows[id]), IndexWithout(x, id))
  {
  }

  lemma AccountDeleted(t: Tables, x: RowIndex, id: AccountID)
    requires WellFormed(t, x) && id in x.rows
    ensures var t' := DeleteAccountRow(t, x.rows[id]);
            var x' := IndexWithout(x, id);
            WellFormed(t', x') && AccountsIn(t', x') == AccountsIn(t, x) - {id}
  {
    CascadeKeepsOthers(t, x.rows[id]);
    ViewWithout(x, Marshalled(t), Marshalled(DeleteAccountRow(t, x.rows[id])), id);
    ShapeDeleted(t, x, id);
  }

  function InsertAccount(t: Tables, row: AccountRow): Tables {
    t.(accounts := t.accounts[t.nextRow := row], nextRow := t.nextRow + 1)
  }

  lemma InsertKeepsOthers(t: Tables, row: AccountRow)
    requires ForeignKeys(t) && t.nextRow !in t.accounts
    ensures Marshalled(InsertAccount(t, row)) == Marshalled(t)[t.nextRow := AccountOfRow(row)]
  {
    var t' := InsertAccount(t, row);
    SameChildren(t, t');
    assert InvoicesOf(t', t.nextRow) == {} && HashesOf(t', t.nextRow) == {};
    assert PaymentsOf(t', t.nextRow) == map[];
    forall q | q in t.accounts
      ensures Marshal(t', q) == Marshal(t, q)
    {
    }
  }

  lemma ShapeInserted(t: Tables, x: RowIndex, id: AccountID, row: AccountRow)
    requires WellFormed(t, x) && id !in x.rows && Inverse(IndexWith(x, id, t.nextRow))
    requires row.alias == AliasOf(id) && (row.name.Some? ==> row.name.value != [])
    ensures WellFormed(InsertAccount(t, row), IndexWith(x, id, t.nextRow))
  {
  }

  lemma AccountInserted(t: Tables, x: RowIndex, id: AccountID, row: AccountRow)
    requires WellFormed(t, x) && id !in x.rows
    requires row.alias == AliasOf(id) && (row.name.Some? ==> row.name.value != [])
    ensures var t' := InsertAccount(t, row);
            var x' := IndexWith(x, id, t.nextRow);
            WellFormed(t', x') && AccountsIn(t', x') == AccountsIn(t, x)[id := AccountOfRow(row)]
  {
    assert t.nextRow !in t.accounts;
    InsertKeepsOthers(t, row);
    ViewWith(x, Marshalled(t), id, t.nextRow, AccountOfRow(row));
    ShapeInserted(t, x, id, row);
  }

  // ---- Where the two backends differ ----

  /** This backend does not refuse amounts above the signed 64-bit maximum. */
  function SqlCredit(st: Store, id: AccountID, amount: Msat): Result<Store> {
    if id !in st.accounts then Err(NotFound)
    else Ok(Replace(st, id, st.accounts[id].(balance := ToInt64(st.accounts[id].balance + amount))))
  }

  function SqlDebit(st: Store, id: AccountID, amount: Msat): Result<Store> {
    if id !in st.accounts then Err(NotFound)
    else
      match DebitOf(st.accounts[id], amount)
      case Err(e) => Err(e)
      case Ok(a) => Ok(Replace(st, id, a))
  }

  /** The calls on which the backends are interchangeable. */
  predicate Portable(c: Call) {
    match c
    case CreditBy(_, amount) => amount <= MAX_INT64
    case DebitBy(_, amount) => amount <= MAX_INT64
    case _ => true
  }

  /** A credit has the same outcome on both backends exactly when the amount fits a
      signed word or there is no such account. */
  lemma CreditDiffersAboveMax(st: Store, id: AccountID, amount: Msat)
    ensures Credit(st, id, amount) == SqlCredit(st, id, amount) <==> amount <= MAX_INT64 || id !in st.accounts
  {
  }

  /** A debit above the maximum is refused by one backend and, unless it would leave a
      negative balance in wrapped arithmetic, carried out by the other. */
  lemma DebitDiffersAboveMax(st: Store, id: AccountID, amount: Msat)
    ensures (Debit(st, id, amount).Ok? == SqlDebit(st, id, amount).Ok?) <==>
            amount <= MAX_INT64 || id !in st.accounts || ToInt64(st.accounts[id].balance - amount) < 0
    ensures amount <= MAX_INT64 ==> Debit(st, id, amount) == SqlDebit(st, id, amount)
  {
  }

  /** The store that well-formed tables stand for. */
  ghost function Represented(t: Tables, x: RowIndex): Option<Store> {
    if WellFormed(t, x) then Some(Store(AccountsIn(t, x), IndexesIn(t))) else None
  }

  lemma Rewrites(t: Tables, t': Tables, x: RowIndex, st: Store, id: AccountID, a: Account)
    requires Represented(t, x) == Some(st) && id in x.rows && RowBecomes(t, t', x.rows[id], a)
    ensures Represented(t', x) == Some(Replace(st, id, a))
    ensures id in st.accounts && st.accounts[id] == Marshal(t, x.rows[id])
  {
    RowChange(t, t', x, id, a);
  }

  /** A row stands for the account under the ID of its alias. */
  lemma RowListed(t: Tables, x: RowIndex, st: Store, q: nat)
    requires Represented(t, x) == Some(st) && q in t.accounts
    ensures FromAlias(t.accounts[q].alias) == x.ids[q]
    ensures x.ids[q] in st.accounts && st.accounts[x.ids[q]] == Marshal(t, q)
  {
    AliasRoundTrip(x.ids[q], t.accounts[q].alias);
  }

  lemma AccountHasRow(t: Tables, x: RowIndex, st: Store)
    requires Represented(t, x) == Some(st)
    ensures x.ids.Keys == t.accounts.Keys
    ensures forall id :: id in st.accounts ==> id in x.ids.Values
  {
    forall id | id in st.accounts ensures id in x.ids.Values {
      assert x.ids[x.rows[id]] == id;
    }
  }

  /** One row of the account table, with what belongs to it. */
  method ReadRow(t: Tables, q: nat, ghost x: RowIndex, ghost st: Store) returns (id: AccountID, a: Account)
    requires Represented(t, x) == Some(st) && q in t.accounts
    ensures q in x.ids && id == x.ids[q] && id in st.accounts && a == st.accounts[id]
  {
    RowListed(t, x, st, q);
    id, a := FromAlias(t.accounts[q].alias), Marshal(t, q);
  }

  /** The accounts of all rows but some were listed. */
  ghost predicate ListedBut(r: map<AccountID, Account>, accounts: map<AccountID, Account>, ids: map<nat, AccountID>, todo: set<nat>) {
    && (forall id :: id in r ==> id in accounts && r[id] == accounts[id])
    && (forall q :: q in ids && q !in todo ==> ids[q] in r)
  }

  lemma OneMoreListed(r: map<AccountID, Account>, accounts: map<AccountID, Account>, ids: map<nat, AccountID>, todo: set<nat>, q: nat)
    requires ListedBut(r, accounts, ids, todo) && q in ids && ids[q] in accounts
    ensures ListedBut(r[ids[q] := accounts[ids[q]]], accounts, ids, todo - {q})
  {
  }

  lemma AllListed(r: map<AccountID, Account>, accounts: map<AccountID, Account>, ids: map<nat, AccountID>)
    requires ListedBut(r, accounts, ids, {}) && forall id :: id in accounts ==> id in ids.Values
    ensures r == accounts
  {
  }

  method ListAll(t: Tables, ghost x: RowIndex, ghost st: Store) returns (r: map<AccountID, Account>)
    requires Represented(t, x) == Some(st)
    ensures r == st.accounts
  {
    r := map[];
    AccountHasRow(t, x, st);
    var todo := t.accounts.Keys;
    while todo != {}
      invariant todo <= t.accounts.Keys && ListedBut(r, st.accounts, x.ids, todo)
      decreases todo
    {
      var q :| q in todo;
      var id, a := ReadRow(t, q, x, st);
      OneMoreListed(r, st.accounts, x.ids, todo, q);
      todo := todo - {q};
      r := r[id := a];
    }
    AllListed(r, st.accounts, x.ids);
  }

  class SqlStore {
    var db: Tables
    ghost var index: RowIndex
    ghost var contents: Store

    ghost predicate Valid()
      reads this
    {
      Represented(db, index) == Some(contents)
    }

    constructor ()
      ensures Valid() && contents == Store(map[], None)
    {
      db := Tables(map[], {}, map[], map[], 0);
      index := RowIndex(map[], map[]);
      contents := Store(map[], None);
    }

    /** SELECT id FROM accounts WHERE alias = ?, for the alias of an account ID. */
    method GetAccountIDByAlias(id: AccountID) returns (r: Option<nat>)
      requires Valid()
      ensures r.Some? <==> id in contents.accounts
      ensures r.Some? ==> IsRow(id, r.value)
    {
      var alias := AliasOf(id);
      var todo := db.accounts.Keys;
      while todo != {}
        invariant todo <= db.accounts.Keys
        invariant forall q :: q in db.accounts && q !in todo ==> index.ids[q] != id
        decreases todo
      {
        var q :| q in todo;
        if db.accounts[q].alias == alias {
          AliasRoundTrip(id, alias);
          AliasRoundTrip(index.ids[q], alias);
          return Some(q);
        }
        todo := todo - {q};
      }
      r := None;
    }

    method Account(id: AccountID) returns (r: Result<Account>)
      requires Valid()
      ensures r == if id in contents.accounts then Ok(contents.accounts[id]) else Err(NotFound)
    {
      var row := GetAccountIDByAlias(id);
      if row.None? {
        return Err(NotFound);
      }
      r := Ok(Marshal(db, row.value));
    }

    method Accounts() returns (r: map<AccountID, Account>)
      requires Valid()
      ensures r == contents.accounts
    {
      r := ListAll(db, index, contents);
    }

    /** The row found for an account ID. */
    ghost predicate IsRow(id: AccountID, r: nat)
      reads this
    {
      id in index.rows && index.rows[id] == r
    }

    /** The tables after a transaction. */
    method Commit(t: Tables, ghost x: RowIndex, ghost st: Store)
      requires Represented(t, x) == Some(st)
      modifies this
      ensures Valid() && db == t && index == x && contents == st
    {
      db, index, contents := t, x, st;
    }

    // The single statements, by what they do to the account of their row.

    method UpdateAccountBalance(r: nat, balance: Int64, ghost id: AccountID)
      requires Valid() && IsRow(id, r)
      modifies this
      ensures Valid() && index == old(index) && id in old(contents).accounts
      ensures contents == Replace(old(contents), id, old(contents).accounts[id].(balance := balance))
    {
      BalanceSet(db, r, balance);
      ghost var a := Marshal(db, r).(balance := balance);
      Rewrites(db, SetBalance(db, r, balance), index, contents, id, a);
      Commit(SetBalance(db, r, balance), index, Replace(contents, id, a));
    }

    method UpdateAccountExpiry(r: nat, expiry: Option<Int64>, ghost id: AccountID)
      requires Valid() && IsRow(id, r)
      modifies this
      ensures Valid() && index == old(index) && id in old(contents).accounts
      ensures contents == Replace(old(contents), id, old(contents).accounts[id].(expiry := expiry))
    {
      ExpirySet(db, r, expiry);
      ghost var a := Marshal(db, r).(expiry := expiry);
      Rewrites(db, SetExpiry(db, r, expiry), index, contents, id, a);
      Commit(SetExpiry(db, r, expiry), index, Replace(contents, id, a));
    }

    method InsertInvoiceRow(r: nat, h: Hash, ghost id: AccountID)
      requires Valid() && IsRow(id, r)
      modifies this
      ensures Valid() && index == old(index) && id in old(contents).accounts
      ensures var a := old(contents).accounts[id];
              contents == Replace(old(contents), id, a.(invoices := a.invoices + {h}))
    {
      InvoiceInserted(db, r, h);
      ghost var a := Marshal(db, r).(invoices := InvoicesOf(db, r) + {h});
      Rewrites(db, InsertInvoice(db, r, h), index, contents, id, a);
      Commit(InsertInvoice(db, r, h), index, Replace(contents, id, a));
    }

    method UpsertPaymentRow(r: nat, h: Hash, status: Status, amount: Msat, ghost id: AccountID)
      requires Valid() && IsRow(id, r)
      modifies this
      ensures Valid() && index == old(index) && id in old(contents).accounts
      ensures var a := old(contents).accounts[id];
              contents == Replace(old(contents), id, a.(payments := a.payments[h := PaymentEntry(status, amount)]))
    {
      var row := PaymentRow(status, ToInt64(amount));
      WordRoundTrip(amount, 0);
      PaymentUpserted(db, r, h, row);
      ghost var a := Marshal(db, r).(payments := PaymentsOf(db, r)[h := PaymentEntry(status, amount)]);
      Rewrites(db, UpsertRow(db, r, h, row), index, contents, id, a);
      Commit(UpsertRow(db, r, h, row), index, Replace(contents, id, a));
    }

    method DeletePaymentRow(r: nat, h: Hash, ghost id: AccountID)
      requires Valid() && IsRow(id, r)
      modifies this
      ensures Valid() && index == old(index) && id in old(contents).accounts
      ensures var a := old(contents).accounts[id];
              contents == Replace(old(contents), id, a.(payments := a.payments - {h}))
    {
      PaymentDeleted(db, r, h);
      ghost var a := Marshal(db, r).(payments := PaymentsOf(db, r) - {h});
      Rewrites(db, DeleteRow(db, r, h), index, contents, id, a);
      Commit(DeleteRow(db, r, h), index, Replace(contents, id, a));
    }

    method InsertAccountRow(id: AccountID, name: Option<Bytes>, balance: Msat, expiry: Option<Int64>)
      requires Valid() && id !in contents.accounts && (name.Some? ==> name.value != [])
      modifies this
      ensures Valid()
      ensures contents == Replace(old(contents), id, FreshAccount(balance, expiry, if name.Some? then name.value else []))
    {
      var row := AccountRow(AliasOf(id), name, ToInt64(balance), ToInt64(balance), expiry);
      WordRoundTrip(balance, 0);
      AccountInserted(db, index, id, row);
      Commit(InsertAccount(db, row), IndexWith(index, id, db.nextRow), Replace(contents, id, AccountOfRow(row)));
    }

    method GetBalance(r: nat, ghost id: AccountID) returns (b: Int64)
      requires Valid() && IsRow(id, r)
      ensures id in contents.accounts && b == contents.accounts[id].balance
    {
      b := db.accounts[r].current;
    }

    method GetAccountInvoice(r: nat, h: Hash, ghost id: AccountID) returns (known: bool)
      requires Valid() && IsRow(id, r)
      ensures id in contents.accounts && known == (h in contents.accounts[id].invoices)
    {
      known := (r, h) in db.invoices;
      assert known ==> h in InvoicesOf(db, r);
    }

    method GetAccountPayment(r: nat, h: Hash, ghost id: AccountID) returns (e: Option<PaymentEntry>)
      requires Valid() && IsRow(id, r)
      ensures id in contents.accounts && e == EntryOf(contents.accounts[id], h)
    {
      KnownRow(db, r, h);
      if (r, h) !in db.payments {
        return None;
      }
      e := Some(PaymentEntry(db.payments[(r, h)].status, ToUint64(db.payments[(r, h)].amount)));
    }

    method UniqueRandomAccountAlias(draws: seq<AccountID>) returns (id: Option<AccountID>)
      requires Valid()
      ensures id == FirstFree(contents.accounts.Keys, draws)
    {
      var i := 0;
      while i < |draws|
        invariant 0 <= i <= |draws|
        invariant FirstFree(contents.accounts.Keys, draws[i..]) == FirstFree(contents.accounts.Keys, draws)
      {
        var row := GetAccountIDByAlias(draws[i]);
        if row.None? {
          return Some(draws[i]);
        }
        assert draws[i..][1..] == draws[i + 1..];
        i := i + 1;
      }
      id := None;
    }

    method GetAccountByLabel(name: Bytes) returns (found: bool)
      requires Valid() && name != []
      ensures found <==> LabelTaken(contents, name)
    {
      var todo := db.accounts.Keys;
      while todo != {}
        invariant todo <= db.accounts.Keys
        invariant forall q :: q in db.accounts && q !in todo ==> db.accounts[q].name != Some(name)
        decreases todo
      {
        var q :| q in todo;
        if db.accounts[q].name == Some(name) {
          assert contents.accounts[index.ids[q]].name == name;
          return true;
        }
        todo := todo - {q};
      }
      forall id | id in contents.accounts
        ensures contents.accounts[id].name != name
      {
        assert db.accounts[index.rows[id]].name != Some(name);
      }
      found := false;
    }

    method NewAccount(balance: Msat, expiry: Option<Int64>, name: Bytes, draws: seq<AccountID>)
      returns (r: Result<AccountID>)
      requires Valid()
      modifies this
      ensures Valid()
      ensures match AccountStore.NewAccount(old(contents), balance, expiry, name, draws)
              case Ok((st, id)) => r == Ok(id) && contents == st
              case Err(e) => r == Err(e) && contents == old(contents)
    {
      if |name| > 0 && LooksLikeID(name) {
        return Err(CreateRefused);
      }
      var id := UniqueRandomAccountAlias(draws);
      if id.None? {
        return Err(CreateRefused);
      }
      if |name| > 0 {
        var taken := GetAccountByLabel(name);
        if taken {
          return Err(CreateRefused);
        }
      }
      var name' := if |name| > 0 then Some(name) else None;
      assert name == if name'.Some? then name'.value else [];
      InsertAccountRow(id.value, name', balance, expiry);
      r := Ok(id.value);
    }

    method UpdateAccountBalanceAndExpiry(id: AccountID, balance: Option<Int64>, expiry: Option<Option<Int64>>)
      returns (err: Option<Error>)
      requires Valid()
      modifies this
      ensures Valid()
      ensures Effect(contents, Answer(err)) == Applied(old(contents), UpdateBalanceAndExpiry(old(contents), id, balance, expiry))
    {
      var row := GetAccountIDByAlias(id);
      if row.None? {
        return Some(NotFound);
      }
      UpdateInSteps(contents, id, balance, expiry);
      if balance.Some? {
        UpdateAccountBalance(row.value, balance.value, id);
      }
      if expiry.Some? {
        UpdateAccountExpiry(row.value, expiry.value, id);
      }
      err := None;
    }

    method AddAccountInvoice(id: AccountID, h: Hash) returns (err: Option<Error>)
      requires Valid()
      modifies this
      ensures Valid() && Effect(contents, Answer(err)) == Applied(old(contents), AddInvoice(old(contents), id, h))
    {
      var row := GetAccountIDByAlias(id);
      if row.None? {
        return Some(NotFound);
      }
      var known := GetAccountInvoice(row.value, h, id);
      InvoiceAddedOnce(contents, id, h);
      if known {
        return None;
      }
      InsertInvoiceRow(row.value, h, id);
      err := None;
    }

    method CreditAccount(id: AccountID, amount: Msat) returns (err: Option<Error>)
      requires Valid()
      modifies this
      ensures Valid() && Effect(contents, Answer(err)) == Applied(old(contents), SqlCredit(old(contents), id, amount))
    {
      var row := GetAccountIDByAlias(id);
      if row.None? {
        return Some(NotFound);
      }
      var balance := GetBalance(row.value, id);
      CreditInSteps(contents, id, amount);
      UpdateAccountBalance(row.value, AddWord(balance, amount), id);
      err := None;
    }

    method DebitAccount(id: AccountID, amount: Msat) returns (err: Option<Error>)
      requires Valid()
      modifies this
      ensures Valid() && Effect(contents, Answer(err)) == Applied(old(contents), SqlDebit(old(contents), id, amount))
    {
      var row := GetAccountIDByAlias(id);
      if row.None? {
        return Some(NotFound);
      }
      var balance := GetBalance(row.value, id);
      DebitInSteps(contents, id, amount);
      if SubtractWord(balance, amount) < 0 {
        return Some(WouldOverdraw);
      }
      UpdateAccountBalance(row.value, SubtractWord(balance, amount), id);
      err := None;
    }

    method UpsertAccountPayment(id: AccountID, h: Hash, amount: Msat, status: Status, opts: UpsertOptions)
      returns (err: Option<Error>)
      requires Valid()
      modifies this
      ensures Valid()
      ensures Effect(contents, Answer(err)) == Applied(old(contents), UpsertPayment(old(contents), id, h, amount, status, opts))
    {
      var row := GetAccountIDByAlias(id);
      if row.None? {
        return Some(NotFound);
      }
      var current := GetAccountPayment(row.value, h, id);
      var fullAmount := amount;
      if current.Some? {
        if opts.errIfAlreadySucceeded && SuccessState(current.value.status) {
          return Some(AlreadySucceeded);
        }
        if opts.errIfAlreadyPending && current.value.status != FAILED {
          return Some(AlreadyPending);
        }
        if opts.usePendingAmount {
          fullAmount := current.value.fullAmount;
        }
      } else if opts.errIfUnknown {
        return Some(NotAssociated);
      }
      UpsertInSteps(contents, id, h, amount, status, opts, fullAmount);
      UpsertPaymentRow(row.value, h, status, fullAmount, id);
      if opts.debitAccount {
        var balance := GetBalance(row.value, id);
        UpdateAccountBalance(row.value, SubtractWord(balance, fullAmount), id);
      }
      err := None;
    }

    method DeleteAccountPayment(id: AccountID, h: Hash) returns (err: Option<Error>)
      requires Valid()
      modifies this
      ensures Valid() && Effect(contents, Answer(err)) == Applied(old(contents), DeletePayment(old(contents), id, h))
    {
      var row := GetAccountIDByAlias(id);
      if row.None? {
        return Some(NotFound);
      }
      var current := GetAccountPayment(row.value, h, id);
      if current.None? {
        return Some(NotAssociated);
      }
      DeletePaymentRow(row.value, h, id);
      err := None;
    }

    method RemoveAccount(id: AccountID) returns (err: Option<Error>)
      requires Valid()
      modifies this
      ensures Valid() && Effect(contents, Answer(err)) == Applied(old(contents), AccountStore.RemoveAccount(old(contents), id))
    {
      var row := GetAccountIDByAlias(id);
      if row.None? {
        return Some(NotFound);
      }
      AccountDeleted(db, index, id);
      Commit(DeleteAccountRow(db, row.value), IndexWithout(index, id),
             contents.(accounts := contents.accounts - {id}));
      err := None;
    }

    method StoreLastIndexes(add: Uint64, settle: Uint64)
      requires Valid()
      modifies this
      ensures Valid() && contents == AccountStore.StoreLastIndexes(old(contents), add, settle)
    {
      IndexesStored(db, index, add, settle);
      var t := db.(indices := db.indices[LastAddIndex := ToInt64(add)]);
      t := t.(indices := t.indices[LastSettleIndex := ToInt64(settle)]);
      Commit(t, index, AccountStore.StoreLastIndexes(contents, add, settle));
    }

    method LastIndexes() returns (r: Result<Indexes>)
      requires Valid()
      ensures r == if contents.indexes.Some? then Ok(contents.indexes.value) else Err(NoIndexKnown)
    {
      if LastAddIndex !in db.indices || LastSettleIndex !in db.indices {
        return Err(NoIndexKnown);
      }
      r := Ok(Indexes(ToUint64(db.indices[LastAddIndex]), ToUint64(db.indices[LastSettleIndex])));
    }

    /** Every portable call of the Store interface, refining its abstract effect. */
    method Execute(c: Call) returns (reply: Reply)
      requires Valid() && Portable(c)
      modifies this
      ensures Valid() && Effect(contents, reply) == Exec(old(contents), c)
    {
      var err: Option<Error>;
      match c {
        case New(balance, expiry, name, draws) =>
          var r := NewAccount(balance, expiry, name, draws);
          return if r.Ok? then Created(r.value) else Failed(r.error);
        case Get(id) =>
          var r := Account(id);
          return if r.Ok? then Found(r.value) else Failed(r.error);
        case List =>
          var r := Accounts();
          return Listed(r);
        case Update(id, balance, expiry) => err := UpdateAccountBalanceAndExpiry(id, balance, expiry);
        case Invoice(id, h) => err := AddAccountInvoice(id, h);
        case CreditBy(id, amount) =>
          CreditDiffersAboveMax(contents, id, amount);
          err := CreditAccount(id, amount);
        case DebitBy(id, amount) =>
          DebitDiffersAboveMax(contents, id, amount);
          err := DebitAccount(id, amount);
        case Upsert(id, h, amount, status, opts) => err := UpsertAccountPayment(id, h, amount, status, opts);
        case Delete(id, h) => err := DeleteAccountPayment(id, h);
        case Remove(id) => err := RemoveAccount(id);
        case SetIndexes(add, settle) => StoreLastIndexes(add, settle); err := None;
        case GetIndexes =>
          var r := LastIndexes();
          return if r.Ok? then FoundIndexes(r.value) else Failed(r.error);
      }
      reply := Answer(err);
    }
  }

  // ---- The abstract effect of each call, statement by statement ----

  lemma UpdateInSteps(st: Store, id: AccountID, balance: Option<Int64>, expiry: Option<Option<Int64>>)
    requires id in st.accounts
    ensures var st1 := if balance.Some? then Replace(st, id, st.accounts[id].(balance := balance.value)) else st;
            var st2 := if expiry.Some? then Replace(st1, id, st1.accounts[id].(expiry := expiry.value)) else st1;
            UpdateBalanceAndExpiry(st, id, balance, expiry) == Ok(st2)
  {
    var a := st.accounts[id];
    var a1 := if balance.Some? then a.(balance := balance.value) else a;
    var a2 := if expiry.Some? then a1.(expiry := expiry.value) else a1;
    assert st.accounts[id := a] == st.accounts;
    assert st.accounts[id := a1][id := a2] == st.accounts[id := a2];
  }

  lemma InvoiceAddedOnce(st: Store, id: AccountID, h: Hash)
    requires id in st.accounts
    ensures var a := st.accounts[id];
            AddInvoice(st, id, h) == Ok(if h in a.invoices then st else Replace(st, id, a.(invoices := a.invoices + {h})))
  {
    var a := st.accounts[id];
    if h in a.invoices {
      assert a.invoices + {h} == a.invoices;
      assert st.accounts[id := a] == st.accounts;
    }
  }

  lemma CreditInSteps(st: Store, id: AccountID, amount: Msat)
    requires id in st.accounts
    ensures var a := st.accounts[id];
            SqlCredit(st, id, amount) == Ok(Replace(st, id, a.(balance := AddWord(a.balance, amount))))
  {
  }

  lemma DebitInSteps(st: Store, id: AccountID, amount: Msat)
    requires id in st.accounts
    ensures var a := st.accounts[id];
            var b := SubtractWord(a.balance, amount);
            SqlDebit(st, id, amount) == if b < 0 then Err(WouldOverdraw) else Ok(Replace(st, id, a.(balance := b)))
  {
  }

  lemma UpsertInSteps(st: Store, id: AccountID, h: Hash, amount: Msat, status: Status, opts: UpsertOptions, full: Msat)
    requires id in st.accounts && UpsertRefusal(EntryOf(st.accounts[id], h), opts).None?
    requires full == if EntryOf(st.accounts[id], h).Some? && opts.usePendingAmount
                     then EntryOf(st.accounts[id], h).value.fullAmount else amount
    ensures var a := st.accounts[id];
            var a1 := a.(payments := a.payments[h := PaymentEntry(status, full)]);
            var st1 := Replace(st, id, a1);
            var st2 := if opts.debitAccount then Replace(st1, id, a1.(balance := SubtractWord(a1.balance, full))) else st1;
            UpsertPayment(st, id, h, amount, status, opts) == Ok(st2)
  {
    var a := st.accounts[id];
    var a1 := a.(payments := a.payments[h := PaymentEntry(status, full)]);
    var a2 := a1.(balance := SubtractWord(a1.balance, full));
    assert st.accounts[id := a1][id := a2] == st.accounts[id := a2];
  }

  lemma KnownRow(t: Tables, r: nat, h: Hash)
    ensures (r, h) in t.payments <==> h in PaymentsOf(t, r)
    ensures (r, h) in t.payments ==>
              PaymentsOf(t, r)[h] == PaymentEntry(t.payments[(r, h)].status, ToUint64(t.payments[(r, h)].amount))
  {
    if (r, h) in t.payments {
      assert h in HashesOf(t, r);
    }
  }

  lemma IndexesStored(t: Tables, x: RowIndex, add: Uint64, settle: Uint64)
    requires WellFormed(t, x)
    ensures var t' := t.(indices := t.indices[LastAddIndex := ToInt64(add)][LastSettleIndex := ToInt64(settle)]);
            && WellFormed(t', x)
            && AccountsIn(t', x) == AccountsIn(t, x)
            && IndexesIn(t') == Some(Indexes(add, settle))
  {
    var t' := t.(indices := t.indices[LastAddIndex := ToInt64(add)][LastSettleIndex := ToInt64(settle)]);
    SameChildren(t, t');
    assert Marshalled(t') == Marshalled(t);
    WordRoundTrip(add, 0);
    WordRoundTrip(settle, 0);
  }
}
