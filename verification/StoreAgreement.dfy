/** Both account backends refine one abstract store, so no sequence of portable calls
    can tell them apart. */
module StoreAgreement {
  import opened AccountTypes
  import opened AccountStore
  import opened BoltBackend
  import opened SqlBackend

  /** An account to which at most one entry was added. */
  ghost predicate GrewByOne(a: Account, a': Account) {
    |a'.invoices| <= |a.invoices| + 1 && |a'.payments| <= |a.payments| + 1 && a'.name == a.name
  }

  lemma DeleteShrinks(a: Account, h: Hash)
    ensures GrewByOne(a, a.(payments := a.payments - {h}))
  {
    Smaller((a.payments - {h}).Keys, a.payments.Keys);
  }

  lemma UpsertGrows(a: Account, h: Hash, amount: Msat, status: Status, opts: UpsertOptions)
    ensures var r := UpsertAccount(a, h, amount, status, opts); r.Ok? ==> GrewByOne(a, r.value)
  {
  }

  /** Calls that write no entry. */
  lemma OthersKeepEntries(st: Store, c: Call, id: AccountID)
    requires id in st.accounts && id in Exec(st, c).store.accounts
    requires !c.Upsert? && !c.Delete? && !c.Invoice?
    ensures var a, a' := st.accounts[id], Exec(st, c).store.accounts[id];
            a'.invoices == a.invoices && a'.payments == a.payments && a'.name == a.name
  {
  }

  /** No call adds more than one entry to an account. */
  lemma CallGrowsByOne(st: Store, c: Call, id: AccountID)
    requires id in st.accounts && id in Exec(st, c).store.accounts
    ensures GrewByOne(st.accounts[id], Exec(st, c).store.accounts[id])
  {
    match c
    case Upsert(_, h, amount, status, opts) => UpsertGrows(st.accounts[id], h, amount, status, opts);
    case Delete(_, h) => DeleteShrinks(st.accounts[id], h);
    case Invoice(_, h) =>
    case _ => OthersKeepEntries(st, c, id);
  }

  lemma NewHasRoom(st: Store, c: Call, id: AccountID, n: nat)
    requires CallFits(c) && n < MAX_INT64 && id !in st.accounts && id in Exec(st, c).store.accounts
    ensures RoomIn(Exec(st, c).store.accounts[id], n)
  {
  }

  lemma RoomShrinksByOne(st: Store, c: Call, n: nat)
    requires Room(st, n + 1) && CallFits(c) && n < MAX_INT64
    ensures Room(Exec(st, c).store, n)
  {
    var st' := Exec(st, c).store;
    forall id | id in st'.accounts ensures RoomIn(st'.accounts[id], n) {
      if id in st.accounts {
        assert RoomIn(st.accounts[id], n + 1);
        CallGrowsByOne(st, c, id);
      } else {
        NewHasRoom(st, c, id, n);
      }
    }
  }

  /** Both backends hold the contents st. */
  ghost predicate BothHold(bolt: BoltStore, sql: SqlStore, st: Store)
    reads bolt, sql
  {
    bolt.Valid() && sql.Valid() && bolt.Contents() == st && sql.contents == st
  }

  method StepBoth(bolt: BoltStore, sql: SqlStore, c: Call, now: Int64, ghost st: Store) returns (b: Reply, q: Reply)
    requires BothHold(bolt, sql, st) && Portable(c) && CallFits(c) && Room(st, 1)
    modifies bolt, sql
    ensures BothHold(bolt, sql, Exec(st, c).store) && b == q == Exec(st, c).reply
  {
    b := bolt.Execute(c, now);
    q := sql.Execute(c);
  }

  /** Running the same calls on both backends, from the same contents, gives the same
      replies all along and the same contents at the end: those of the abstract store. */
  method RunBoth(bolt: BoltStore, sql: SqlStore, calls: seq<Call>, clock: nat -> Int64, ghost st: Store)
    returns (boltReplies: seq<Reply>, sqlReplies: seq<Reply>)
    requires BothHold(bolt, sql, st)
    requires forall i :: 0 <= i < |calls| ==> Portable(calls[i]) && CallFits(calls[i])
    requires |calls| < MAX_INT64 && Room(st, |calls|)
    modifies bolt, sql
    decreases |calls|
    ensures BothHold(bolt, sql, StoreAfter(st, calls))
    ensures boltReplies == sqlReplies == ExecAll(st, calls)
  {
    if calls == [] {
      return [], [];
    }
    RoomForRest(st, calls);
    assert forall i :: 0 <= i < |calls| - 1 ==> calls[1..][i] == calls[i + 1];
    var b, q := StepBoth(bolt, sql, calls[0], clock(0), st);
    var bs, qs := RunBoth(bolt, sql, calls[1..], i => clock(i + 1), Exec(st, calls[0]).store);
    boltReplies, sqlReplies := [b] + bs, [q] + qs;
  }

  lemma RoomForRest(st: Store, calls: seq<Call>)
    requires calls != [] && CallFits(calls[0]) && |calls| < MAX_INT64 && Room(st, |calls|)
    ensures Room(st, 1) && Room(Exec(st, calls[0]).store, |calls| - 1)
  {
    RoomShrinksByOne(st, calls[0], |calls| - 1);
  }
}
