/** Laws of the account store that tie its calls to each other: what a call leaves alone,
    what later calls see of it, and what holds over every sequence of calls. */
module StoreLaws {
  import opened AccountTypes
  import opened AccountStore

  // ---- What a call leaves alone ----

  /** The account a call is about; a new one is named by the reply. */
  function Target(c: Call, r: Reply): Option<AccountID> {
    match c
    case New(_, _, _, _) => if r.Created? then Some(r.id) else None
    case Update(id, _, _) => Some(id)
    case Invoice(id, _) => Some(id)
    case CreditBy(id, _) => Some(id)
    case DebitBy(id, _) => Some(id)
    case Upsert(id, _, _, _, _) => Some(id)
    case Delete(id, _) => Some(id)
    case Remove(id) => Some(id)
    case _ => None
  }

  /** No account changes but the one that the call is about, and none if it is refused. */
  lemma CallIsLocal(st: Store, c: Call)
    ensures var e := Exec(st, c);
            && (e.reply.Failed? ==> e.store == st)
            && (forall id :: Some(id) != Target(c, e.reply) ==>
                  (id in e.store.accounts <==> id in st.accounts) && (id in st.accounts ==> e.store.accounts[id] == st.accounts[id]))
            && (!c.SetIndexes? ==> e.store.indexes == st.indexes)
            && (c.Get? || c.List? || c.GetIndexes? ==> e.store == st)
  {
  }

  /** What never changes of an account, whatever is called. */
  lemma IdentityStays(st: Store, c: Call, id: AccountID)
    requires id in st.accounts && id in Exec(st, c).store.accounts
    ensures var a, a' := st.accounts[id], Exec(st, c).store.accounts[id];
            a'.initialBalance == a.initialBalance && a'.name == a.name && a.invoices <= a'.invoices
  {
  }

  // ---- What later calls see ----

  function Fetch(st: Store, id: AccountID): Option<Account> {
    var r := Exec(st, Get(id)).reply;
    if r.Found? then Some(r.account) else None
  }

  /** Sixteen characters out of the digits and the letters a to f in either case. */
  ghost predicate HexOfID(name: seq<Byte>) {
    |name| == 16 &&
    forall b :: b in name ==> ('0' as int) <= b <= ('9' as int) || ('a' as int) <= b <= ('f' as int) || ('A' as int) <= b <= ('F' as int)
  }

  lemma LooksLikeIDIff(name: seq<Byte>)
    ensures LooksLikeID(name) <==> HexOfID(name)
  {
    if HexOfID(name) {
      assert forall i :: 0 <= i < |name| ==> name[i] in name;
    }
  }

  /** A new account gets the first free draw and starts with what was asked for; it is
      refused exactly if every draw is taken or the label is not allowed. */
  lemma CreatedIsFound(st: Store, balance: Msat, expiry: Option<Int64>, name: seq<Byte>, draws: seq<AccountID>)
    ensures var e := Exec(st, New(balance, expiry, name, draws));
            && (e.reply.Created? <==>
                (exists i :: 0 <= i < |draws| && draws[i] !in st.accounts) &&
                (|name| == 0 || (!HexOfID(name) && forall id :: id in st.accounts ==> st.accounts[id].name != name)))
            && (e.reply.Created? ==>
                  && e.reply.id !in st.accounts && e.reply.id in draws
                  && Fetch(e.store, e.reply.id) == Some(Account(balance, ToInt64(balance), expiry, {}, map[], name)))
  {
    LooksLikeIDIff(name);
    if forall i :: 0 <= i < |draws| ==> draws[i] in st.accounts {
      assert FirstFree(st.accounts.Keys, draws).None?;
    } else {
      assert FirstFree(st.accounts.Keys, draws).Some?;
    }
  }

  /** Only what is given is set. */
  lemma UpdatedIsFound(st: Store, id: AccountID, balance: Option<Int64>, expiry: Option<Option<Int64>>)
    requires id in st.accounts
    ensures var a, a' := st.accounts[id], Fetch(Exec(st, Update(id, balance, expiry)).store, id);
            && a'.Some?
            && a'.value.balance == (if balance.Some? then balance.value else a.balance)
            && a'.value.expiry == (if expiry.Some? then expiry.value else a.expiry)
            && a'.value.payments == a.payments && a'.value.invoices == a.invoices
  {
  }

  /** A call about an account that does not exist is refused, whatever it is. */
  lemma MissingIsRefused(st: Store, c: Call)
    requires !c.New? && Target(c, Done).Some? && Target(c, Done).value !in st.accounts
    ensures Exec(st, c).reply.Failed? && Fetch(st, Target(c, Done).value).None?
  {
  }

  /** A debit takes back exactly what a credit gave. */
  lemma DebitUndoesCredit(st: Store, id: AccountID, amount: Msat)
    requires id in st.accounts && st.accounts[id].balance >= 0
    ensures var e := Exec(st, CreditBy(id, amount));
            && (e.reply == Done <==> amount <= MAX_INT64)
            && (e.reply == Done ==> Exec(e.store, DebitBy(id, amount)) == Effect(st, Done))
  {
    if amount <= MAX_INT64 {
      var a := st.accounts[id];
      var a1 := a.(balance := ToInt64(a.balance + amount));
      TakenBack(a.balance, amount);
      assert a1.(balance := a.balance) == a;
      assert st.accounts[id := a1][id := a] == st.accounts;
    }
  }

  lemma TakenBack(balance: Int64, amount: Msat)
    ensures ToInt64(ToInt64(balance + amount) - amount) == balance
  {
    WrapAbsorbs(balance + amount, -(amount as int));
  }

  /** A debit is accepted exactly if the balance covers it, or is so far below zero that
      the subtraction wraps around. */
  lemma DebitAcceptedIff(st: Store, id: AccountID, amount: Msat)
    requires id in st.accounts
    ensures var balance, e := st.accounts[id].balance, Exec(st, DebitBy(id, amount));
            && (e.reply == Done <==> amount <= MAX_INT64 && (amount <= balance || balance - amount < -TWO_63))
            && (e.reply == Done && amount <= balance ==> Fetch(e.store, id) == Some(st.accounts[id].(balance := balance - amount)))
  {
  }

  /** The write that an upsert makes of an entry, by its options alone. */
  lemma UpsertAcceptedIff(st: Store, id: AccountID, h: Hash, amount: Msat, status: Status, opts: UpsertOptions)
    requires id in st.accounts
    ensures var p := st.accounts[id].payments;
            var e := Exec(st, Upsert(id, h, amount, status, opts));
            && (e.reply == Done <==>
                if h in p then !(opts.errIfAlreadySucceeded && p[h].status == 2) && !(opts.errIfAlreadyPending && p[h].status != 3)
                else !opts.errIfUnknown)
            && (e.reply == Failed(AlreadySucceeded) <==> h in p && opts.errIfAlreadySucceeded && p[h].status == 2)
            && (e.reply == Failed(NotAssociated) <==> h !in p && opts.errIfUnknown)
            && (e.reply == Done ==>
                  var a' := Fetch(e.store, id);
                  && a'.Some? && h in a'.value.payments && a'.value.payments - {h} == p - {h}
                  && var w := a'.value.payments[h];
                     && w.status == status
                     && (w.fullAmount == if opts.usePendingAmount && h in p then p[h].fullAmount else amount)
                     && a'.value.balance ==
                        if opts.debitAccount then ToInt64(st.accounts[id].balance - w.fullAmount) else st.accounts[id].balance)
  {
    var e := Exec(st, Upsert(id, h, amount, status, opts));
    if e.reply == Done {
      var p := st.accounts[id].payments;
      assert e.store.accounts[id].payments - {h} == p - {h};
    }
  }

  /** An entry that was written can be deleted, once, and then the account is as before. */
  lemma DeleteUndoesInsert(st: Store, id: AccountID, h: Hash, amount: Msat, status: Status)
    requires id in st.accounts && h !in st.accounts[id].payments
    ensures var written := Exec(st, Upsert(id, h, amount, status, NO_OPTIONS));
            && Exec(written.store, Delete(id, h)) == Effect(st, Done)
            && Exec(st, Delete(id, h)).reply == Failed(NotAssociated)
  {
    var a := st.accounts[id];
    var p := a.payments[h := PaymentEntry(status, amount)];
    assert p - {h} == a.payments;
    assert st.accounts[id := a.(payments := p)][id := a] == st.accounts;
  }

  /** A removed account is gone, and what was stored of the indexes is read back. */
  lemma RemovedIsGone(st: Store, id: AccountID, add: Uint64, settle: Uint64)
    ensures Fetch(Exec(st, Remove(id)).store, id).None?
    ensures Exec(Exec(st, SetIndexes(add, settle)).store, GetIndexes).reply == FoundIndexes(Indexes(add, settle))
    ensures Exec(st, SetIndexes(add, settle)).store.accounts == st.accounts
  {
  }

  // ---- Labels, over every sequence of calls ----

  /** No label looks like an account id, and no two accounts share one. */
  ghost predicate LabelsDistinct(st: Store) {
    && (forall i :: i in st.accounts ==> !HexOfID(st.accounts[i].name))
    && (forall i, j :: i in st.accounts && j in st.accounts && i != j && st.accounts[i].name != [] ==>
          st.accounts[i].name != st.accounts[j].name)
  }

  lemma NewKeepsLabels(st: Store, c: Call)
    requires LabelsDistinct(st) && c.New?
    ensures LabelsDistinct(Exec(st, c).store)
  {
    CreatedIsFound(st, c.balance, c.expiry, c.name, c.draws);
    CallIsLocal(st, c);
    var e := Exec(st, c);
    if e.reply.Created? {
      assert e.store.accounts == st.accounts[e.reply.id := e.store.accounts[e.reply.id]];
    }
  }

  lemma CallKeepsLabels(st: Store, c: Call)
    requires LabelsDistinct(st)
    ensures LabelsDistinct(Exec(st, c).store)
  {
    if c.New? {
      NewKeepsLabels(st, c);
    } else {
      OthersKeepNames(st, c);
      SameLabelsDistinct(st, Exec(st, c).store);
    }
  }

  ghost predicate SameLabels(m: map<AccountID, Account>, m': map<AccountID, Account>) {
    forall i :: i in m' ==> i in m && m'[i].name == m[i].name
  }

  lemma OthersKeepNames(st: Store, c: Call)
    requires !c.New?
    ensures SameLabels(st.accounts, Exec(st, c).store.accounts)
  {
    forall i | i in Exec(st, c).store.accounts
      ensures i in st.accounts && Exec(st, c).store.accounts[i].name == st.accounts[i].name
    {
      CallIsLocal(st, c);
      if i in st.accounts {
        IdentityStays(st, c, i);
      }
    }
  }

  lemma SameLabelsDistinct(st: Store, st': Store)
    requires LabelsDistinct(st) && SameLabels(st.accounts, st'.accounts)
    ensures LabelsDistinct(st')
  {
  }

  lemma {:induction false} LabelsStayDistinct(st: Store, calls: seq<Call>)
    requires LabelsDistinct(st)
    ensures LabelsDistinct(StoreAfter(st, calls))
    decreases |calls|
  {
    if calls != [] {
      CallKeepsLabels(st, calls[0]);
      LabelsStayDistinct(Exec(st, calls[0]).store, calls[1..]);
    }
  }
}
