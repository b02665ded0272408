/** The TLV encoding of accounts. Record decoders read from the shared stream and
    ignore the declared length of their record, which for the two map records does
    not cover the leading count. */
module AccountCodec {
  import opened AccountTypes
  import opened Wire

  /** An account as it is stored, with the fields only storage needs. */
  datatype StoredAccount = StoredAccount(id: AccountID, accountType: Byte, lastUpdate: Int64, account: Account)

  /** Go maps and strings are shorter than 2^63. */
  ghost predicate Fits(a: Account) {
    |a.invoices| <= MAX_INT64 && |a.payments| <= MAX_INT64 && |a.name| <= MAX_INT64
  }

  /** A sequence that goes through a set once, as ranging over a Go map does. */
  ghost predicate Enumerates<T(!new)>(order: seq<T>, s: set<T>) {
    |order| == |s| && forall x :: x in order <==> x in s
  }

  // ---- Invoices ----

  function HashBytes(order: seq<Hash>): Bytes {
    if order == [] then [] else order[0] + HashBytes(order[1..])
  }

  function EncodeInvoices(order: seq<Hash>): Bytes
    requires |order| <= MAX_INT64
  {
    WriteVarInt(|order|) + HashBytes(order)
  }

  function ReadHashes(s: Bytes, n: nat, acc: set<Hash>): (r: Read<set<Hash>>)
    ensures r.Got? ==> |r.rest| <= |s|
  {
    if n == 0 then Got(acc, s)
    else if |s| < 32 then Bad
    else ReadHashes(s[32..], n - 1, acc + {s[..32]})
  }

  function DecodeInvoices(s: Bytes): (r: Read<set<Hash>>)
    ensures r.Got? ==> |r.rest| <= |s|
  {
    match ReadVarInt(s)
    case Bad => Bad
    case Got(n, rest) => ReadHashes(rest, n, {})
  }

  lemma {:induction false} ReadHashesOfWritten(order: seq<Hash>, rest: Bytes, acc: set<Hash>)
    ensures ReadHashes(HashBytes(order) + rest, |order|, acc) == Got(acc + (set h | h in order), rest)
  {
    if order == [] {
      assert HashBytes(order) + rest == rest;
      assert acc + (set h: Hash | h in order) == acc;
    } else {
      var s := HashBytes(order) + rest;
      assert s == order[0] + (HashBytes(order[1..]) + rest);
      assert s[..32] == order[0] && s[32..] == HashBytes(order[1..]) + rest;
      ReadHashesOfWritten(order[1..], rest, acc + {order[0]});
      assert order == [order[0]] + order[1..];
      assert acc + {order[0]} + (set h | h in order[1..]) == acc + (set h | h in order);
    }
  }

  lemma InvoicesRoundTrip(invoices: set<Hash>, order: seq<Hash>, rest: Bytes)
    requires Enumerates(order, invoices) && |invoices| <= MAX_INT64
    ensures DecodeInvoices(EncodeInvoices(order) + rest) == Got(invoices, rest)
  {
    VarIntRoundTrip(|order|, HashBytes(order) + rest);
    assert EncodeInvoices(order) + rest == WriteVarInt(|order|) + (HashBytes(order) + rest);
    ReadHashesOfWritten(order, rest, {});
    assert {} + (set h | h in order) == invoices;
  }

  /** Writes the count, then every hash in whatever order the map yields. */
  method InvoiceEntryMapEncoder(invoices: set<Hash>) returns (w: Bytes, ghost order: seq<Hash>)
    requires |invoices| <= MAX_INT64
    ensures Enumerates(order, invoices) && w == EncodeInvoices(order)
    ensures DecodeInvoices(w) == Got(invoices, [])
  {
    w := WriteVarInt(|invoices|);
    order := [];
    var todo := invoices;
    while todo != {}
      invariant todo <= invoices && |order| + |todo| == |invoices|
      invariant forall h :: h in order <==> h in invoices && h !in todo
      invariant w == WriteVarInt(|invoices|) + HashBytes(order)
      decreases todo
    {
      var h :| h in todo;
      HashBytesAppend(order, h);
      w := w + h;
      todo, order := todo - {h}, order + [h];
    }
    InvoicesRoundTrip(invoices, order, []);
    assert w + [] == w;
  }

  lemma {:induction false} HashBytesAppend(order: seq<Hash>, h: Hash)
    ensures HashBytes(order + [h]) == HashBytes(order) + h
  {
    if order == [] {
      assert [h][1..] == [];
    } else {
      assert (order + [h])[1..] == order[1..] + [h];
      HashBytesAppend(order[1..], h);
    }
  }

  method InvoiceEntryMapDecoder(r: Bytes) returns (out: Read<set<Hash>>)
    ensures out == DecodeInvoices(r)
  {
    var count := ReadVarInt(r);
    if count.Bad? {
      return Bad;
    }
    var hashes: set<Hash> := {};
    var stream := count.rest;
    var i := 0;
    while i < count.value
      invariant 0 <= i <= count.value
      invariant ReadHashes(stream, count.value - i, hashes) == DecodeInvoices(r)
    {
      if |stream| < 32 {
        return Bad;
      }
      hashes, stream := hashes + {stream[..32]}, stream[32..];
      i := i + 1;
    }
    out := Got(hashes, stream);
  }

  // ---- Payments ----

  const ENTRY_SIZE := 41

  function EntryBytes(h: Hash, e: PaymentEntry): (b: Bytes)
    ensures |b| == ENTRY_SIZE
  {
    h + [e.status] + BigEndian(e.fullAmount, 8)
  }

  function PaymentBytes(m: Payments, order: seq<Hash>): Bytes
    requires forall h :: h in order ==> h in m
  {
    if order == [] then [] else EntryBytes(order[0], m[order[0]]) + PaymentBytes(m, order[1..])
  }

  function EncodePayments(m: Payments, order: seq<Hash>): Bytes
    requires |order| <= MAX_INT64 && forall h :: h in order ==> h in m
  {
    WriteVarInt(|order|) + PaymentBytes(m, order)
  }

  function ReadEntry(s: Bytes): (r: Read<(Hash, PaymentEntry)>)
    ensures r.Got? ==> |r.rest| < |s|
  {
    if |s| < 33 then Bad
    else
      match ReadUint64(s[33..])
      case Bad => Bad
      case Got(amount, rest) => Got((s[..32], PaymentEntry(s[32], amount)), rest)
  }

  function ReadEntries(s: Bytes, n: nat, acc: Payments): (r: Read<Payments>)
    ensures r.Got? ==> |r.rest| <= |s|
  {
    if n == 0 then Got(acc, s)
    else
      match ReadEntry(s)
      case Bad => Bad
      case Got(e, rest) => ReadEntries(rest, n - 1, acc[e.0 := e.1])
  }

  function DecodePayments(s: Bytes): (r: Read<Payments>)
    ensures r.Got? ==> |r.rest| <= |s|
  {
    match ReadVarInt(s)
    case Bad => Bad
    case Got(n, rest) => ReadEntries(rest, n, map[])
  }

  lemma EntryRoundTrip(h: Hash, e: PaymentEntry, rest: Bytes)
    ensures ReadEntry(EntryBytes(h, e) + rest) == Got((h, e), rest)
  {
    var s := EntryBytes(h, e) + rest;
    assert s[..32] == h && s[32] == e.status && s[33..] == BigEndian(e.fullAmount, 8) + rest;
    Uint64RoundTrip(e.fullAmount, rest);
  }

  /** The entries that a list of hashes selects. */
  function Select(m: Payments, order: seq<Hash>): Payments
    requires forall h :: h in order ==> h in m
  {
    map h | h in order :: m[h]
  }

  lemma SelectFirst(m: Payments, order: seq<Hash>, acc: Payments)
    requires order != [] && forall h :: h in order ==> h in m
    ensures acc[order[0] := m[order[0]]] + Select(m, order[1..]) == acc + Select(m, order)
  {
    assert order == [order[0]] + order[1..];
  }

  lemma {:induction false} ReadEntriesOfWritten(m: Payments, order: seq<Hash>, rest: Bytes, acc: Payments)
    requires forall h :: h in order ==> h in m
    ensures ReadEntries(PaymentBytes(m, order) + rest, |order|, acc) == Got(acc + Select(m, order), rest)
  {
    if order == [] {
      assert PaymentBytes(m, order) + rest == rest;
      assert acc + Select(m, order) == acc;
    } else {
      var h := order[0];
      var tail := PaymentBytes(m, order[1..]) + rest;
      assert PaymentBytes(m, order) + rest == EntryBytes(h, m[h]) + tail;
      EntryRoundTrip(h, m[h], tail);
      ReadEntriesOfWritten(m, order[1..], rest, acc[h := m[h]]);
      SelectFirst(m, order, acc);
    }
  }

  lemma PaymentsRoundTrip(m: Payments, order: seq<Hash>, rest: Bytes)
    requires Enumerates(order, m.Keys) && |m| <= MAX_INT64
    ensures DecodePayments(EncodePayments(m, order) + rest) == Got(m, rest)
  {
    var body := PaymentBytes(m, order) + rest;
    VarIntRoundTrip(|order|, body);
    assert EncodePayments(m, order) + rest == WriteVarInt(|order|) + body;
    ReadEntriesOfWritten(m, order, rest, map[]);
    SelectAll(m, order);
  }

  lemma SelectAll(m: Payments, order: seq<Hash>)
    requires forall h :: h in order <==> h in m
    ensures map[] + Select(m, order) == m
  {
  }

  method PaymentEntryMapEncoder(m: Payments) returns (w: Bytes, ghost order: seq<Hash>)
    requires |m| <= MAX_INT64
    ensures Enumerates(order, m.Keys) && w == EncodePayments(m, order)
    ensures DecodePayments(w) == Got(m, [])
  {
    w := WriteVarInt(|m|);
    order := [];
    var todo := m.Keys;
    while todo != {}
      invariant todo <= m.Keys && |order| + |todo| == |m.Keys|
      invariant forall h :: h in order <==> h in m && h !in todo
      invariant w == WriteVarInt(|m|) + PaymentBytes(m, order)
      decreases todo
    {
      var h :| h in todo;
      PaymentBytesAppend(m, order, h);
      w := w + h;
      w := w + [m[h].status];
      w := w + BigEndian(m[h].fullAmount, 8);
      todo, order := todo - {h}, order + [h];
    }
    PaymentsRoundTrip(m, order, []);
    assert w + [] == w;
  }

  lemma {:induction false} PaymentBytesAppend(m: Payments, order: seq<Hash>, h: Hash)
    requires h in m && forall k :: k in order ==> k in m
    ensures forall k :: k in order + [h] ==> k in m
    ensures PaymentBytes(m, order + [h]) == PaymentBytes(m, order) + h + [m[h].status] + BigEndian(m[h].fullAmount, 8)
  {
    if order == [] {
      assert [h][1..] == [];
    } else {
      assert (order + [h])[1..] == order[1..] + [h];
      PaymentBytesAppend(m, order[1..], h);
    }
  }

  method PaymentEntryMapDecoder(r: Bytes) returns (out: Read<Payments>)
    ensures out == DecodePayments(r)
  {
    var count := ReadVarInt(r);
    if count.Bad? {
      return Bad;
    }
    var entries: Payments := map[];
    var stream := count.rest;
    var i := 0;
    while i < count.value
      invariant 0 <= i <= count.value
      invariant ReadEntries(stream, count.value - i, entries) == DecodePayments(r)
    {
      var e := ReadEntry(stream);
      if e.Bad? {
        return Bad;
      }
      entries, stream := entries[e.value.0 := e.value.1], e.rest;
      i := i + 1;
    }
    out := Got(entries, stream);
  }

  // ---- The record stream ----

  const TYPE_ID := 1
  const TYPE_ACCOUNT_TYPE := 2
  const TYPE_INITIAL_BALANCE := 3
  const TYPE_CURRENT_BALANCE := 4
  const TYPE_LAST_UPDATE := 5
  const TYPE_EXPIRATION_DATE := 6
  const TYPE_INVOICES := 7
  const TYPE_PAYMENTS := 8
  const TYPE_LABEL := 9

  /** The variables a decoder fills; the expiry is None until its record is seen. */
  datatype Fields = Fields(
    id: Bytes,
    accountType: Byte,
    initialBalance: Uint64,
    currentBalance: Uint64,
    lastUpdate: Uint64,
    expirationDate: Option<Uint64>,
    invoices: set<Hash>,
    payments: Payments,
    name: Bytes)

  const NO_FIELDS := Fields([], 0, 0, 0, 0, None, {}, map[], [])

  function Record(typ: Uint64, size: Uint64, value: Bytes): Bytes {
    WriteVarInt(typ) + WriteVarInt(size) + value
  }

  /** A primitive integer record must declare its exact length. */
  function ReadSized(s: Bytes, size: Uint64): Read<Uint64> {
    if size != 8 then Bad else ReadUint64(s)
  }

  function DecodeRecord(typ: Uint64, size: Uint64, s: Bytes, f: Fields): (r: Read<Fields>)
    ensures r.Got? ==> |r.rest| <= |s|
  {
    if typ == TYPE_ID then
      var r := ReadBytes(s, size); if r.Bad? then Bad else Got(f.(id := r.value), r.rest)
    else if typ == TYPE_ACCOUNT_TYPE then
      if size != 1 || s == [] then Bad else Got(f.(accountType := s[0]), s[1..])
    else if typ == TYPE_INITIAL_BALANCE then
      var r := ReadSized(s, size); if r.Bad? then Bad else Got(f.(initialBalance := r.value), r.rest)
    else if typ == TYPE_CURRENT_BALANCE then
      var r := ReadSized(s, size); if r.Bad? then Bad else Got(f.(currentBalance := r.value), r.rest)
    else if typ == TYPE_LAST_UPDATE then
      var r := ReadSized(s, size); if r.Bad? then Bad else Got(f.(lastUpdate := r.value), r.rest)
    else if typ == TYPE_EXPIRATION_DATE then
      var r := ReadSized(s, size); if r.Bad? then Bad else Got(f.(expirationDate := Some(r.value)), r.rest)
    else if typ == TYPE_INVOICES then
      var r := DecodeInvoices(s); if r.Bad? then Bad else Got(f.(invoices := r.value), r.rest)
    else if typ == TYPE_PAYMENTS then
      var r := DecodePayments(s); if r.Bad? then Bad else Got(f.(payments := r.value), r.rest)
    else if typ == TYPE_LABEL then
      var r := ReadBytes(s, size); if r.Bad? then Bad else Got(f.(name := r.value), r.rest)
    else
      var r := ReadBytes(s, size); if r.Bad? then Bad else Got(f, r.rest)
  }

  /** The type and the length in front of a record. */
  function ReadHeader(s: Bytes): (r: Read<(Uint64, Uint64)>)
    ensures r.Got? ==> |r.rest| < |s|
  {
    var typ := ReadVarInt(s);
    if typ.Bad? then Bad
    else
      var size := ReadVarInt(typ.rest);
      if size.Bad? then Bad else Got((typ.value, size.value), size.rest)
  }

  lemma HeaderRoundTrip(typ: Uint64, size: Uint64, value: Bytes, rest: Bytes)
    ensures ReadHeader(Record(typ, size, value) + rest) == Got((typ, size), value + rest)
    ensures Record(typ, size, value) != []
  {
    var s := Record(typ, size, value) + rest;
    assert s == WriteVarInt(typ) + (WriteVarInt(size) + (value + rest));
    VarIntRoundTrip(typ, WriteVarInt(size) + (value + rest));
    VarIntRoundTrip(size, value + rest);
  }

  /** Records come in strictly increasing type order; unknown ones are skipped. */
  function DecodeStream(s: Bytes, least: nat, f: Fields): Option<Fields>
    decreases |s|
  {
    if s == [] then Some(f)
    else
      var h := ReadHeader(s);
      if h.Bad? || h.value.0 < least then None
      else
        var r := DecodeRecord(h.value.0, h.value.1, h.rest, f);
        if r.Bad? then None else DecodeStream(r.rest, h.value.0 + 1, r.value)
  }

  /** The ID field is eight bytes whatever was read. */
  function CopyID(b: Bytes): AccountID {
    seq(8, i requires 0 <= i < 8 => if i < |b| then b[i] else 0)
  }

  function DeserializeAccount(content: Bytes): Option<StoredAccount> {
    match DecodeStream(content, 0, NO_FIELDS)
    case None => None
    case Some(f) =>
      var expiry := if f.expirationDate.Some? then Some(ToInt64(f.expirationDate.value)) else None;
      Some(StoredAccount(CopyID(f.id), f.accountType, ToInt64(f.lastUpdate),
                         Account(f.initialBalance, ToInt64(f.currentBalance), expiry, f.invoices, f.payments, f.name)))
  }

  function ExpiryRecord(a: Account): Bytes {
    if a.expiry.Some? then Record(TYPE_EXPIRATION_DATE, 8, BigEndian(ToUint64(a.expiry.value), 8)) else []
  }

  ghost function TailRecords(a: Account, invoiceOrder: seq<Hash>, paymentOrder: seq<Hash>): Bytes
    requires Fits(a) && Enumerates(invoiceOrder, a.invoices) && Enumerates(paymentOrder, a.payments.Keys)
  {
    Record(TYPE_INVOICES, ToUint64(|a.invoices| * 32), EncodeInvoices(invoiceOrder)) +
    (Record(TYPE_PAYMENTS, ToUint64(|a.payments| * ENTRY_SIZE), EncodePayments(a.payments, paymentOrder)) +
     Record(TYPE_LABEL, |a.name|, a.name))
  }

  ghost function Encode(x: StoredAccount, invoiceOrder: seq<Hash>, paymentOrder: seq<Hash>): Bytes
    requires Fits(x.account)
    requires Enumerates(invoiceOrder, x.account.invoices) && Enumerates(paymentOrder, x.account.payments.Keys)
  {
    Record(TYPE_ID, 8, x.id) +
    (Record(TYPE_ACCOUNT_TYPE, 1, [x.accountType]) +
     (Record(TYPE_INITIAL_BALANCE, 8, BigEndian(x.account.initialBalance, 8)) +
      (Record(TYPE_CURRENT_BALANCE, 8, BigEndian(ToUint64(x.account.balance), 8)) +
       (Record(TYPE_LAST_UPDATE, 8, BigEndian(ToUint64(x.lastUpdate), 8)) +
        (ExpiryRecord(x.account) + TailRecords(x.account, invoiceOrder, paymentOrder))))))
  }

  /** The bytes of the fixed records, and where the others follow. */
  lemma FixedLayout(x: StoredAccount, io: seq<Hash>, po: seq<Hash>)
    requires Fits(x.account)
    requires Enumerates(io, x.account.invoices) && Enumerates(po, x.account.payments.Keys)
    ensures Encode(x, io, po) ==
            [1, 8] + x.id +
            ([2, 1] + [x.accountType] +
             ([3, 8] + BigEndian(x.account.initialBalance, 8) +
              ([4, 8] + BigEndian(ToUint64(x.account.balance), 8) +
               ([5, 8] + BigEndian(ToUint64(x.lastUpdate), 8) +
                ((if x.account.expiry.Some? then [6, 8] + BigEndian(ToUint64(x.account.expiry.value), 8) else []) +
                 TailRecords(x.account, io, po))))))
  {
    ShortRecord(1, 8, x.id);
    ShortRecord(2, 1, [x.accountType]);
    ShortRecord(3, 8, BigEndian(x.account.initialBalance, 8));
    ShortRecord(4, 8, BigEndian(ToUint64(x.account.balance), 8));
    ShortRecord(5, 8, BigEndian(ToUint64(x.lastUpdate), 8));
    if x.account.expiry.Some? {
      ShortRecord(6, 8, BigEndian(ToUint64(x.account.expiry.value), 8));
    }
  }

  lemma ShortRecord(typ: Uint64, size: Uint64, value: Bytes)
    requires typ < 253 && size < 253
    ensures Record(typ, size, value) == [typ, size] + value
  {
  }

  /** An empty account ends in three records that hold nothing but counts and lengths. */
  lemma EmptyTail(a: Account)
    requires a.invoices == {} && a.payments == map[] && a.name == []
    ensures Fits(a) && Enumerates<Hash>([], a.invoices) && Enumerates<Hash>([], a.payments.Keys)
    ensures TailRecords(a, [], []) == [7, 0, 0, 8, 0, 0, 9, 0]
  {
    ShortRecord(7, 0, EncodeInvoices([]));
    ShortRecord(8, 0, EncodePayments(a.payments, []));
    ShortRecord(9, 0, []);
  }

  /** Decoding a stream that starts with a record reads exactly that record. */
  lemma DecodeFirst(typ: Uint64, size: Uint64, value: Bytes, rest: Bytes, least: nat, f: Fields, g: Fields)
    requires least <= typ && DecodeRecord(typ, size, value + rest, f) == Got(g, rest)
    ensures DecodeStream(Record(typ, size, value) + rest, least, f) == DecodeStream(rest, typ + 1, g)
  {
    HeaderRoundTrip(typ, size, value, rest);
  }

  lemma DecodeWord(typ: Uint64, n: Uint64, rest: Bytes, least: nat, f: Fields, g: Fields)
    requires least <= typ
    requires (typ == TYPE_INITIAL_BALANCE && g == f.(initialBalance := n)) ||
             (typ == TYPE_CURRENT_BALANCE && g == f.(currentBalance := n)) ||
             (typ == TYPE_LAST_UPDATE && g == f.(lastUpdate := n)) ||
             (typ == TYPE_EXPIRATION_DATE && g == f.(expirationDate := Some(n)))
    ensures DecodeStream(Record(typ, 8, BigEndian(n, 8)) + rest, least, f) == DecodeStream(rest, typ + 1, g)
  {
    Uint64RoundTrip(n, rest);
    DecodeFirst(typ, 8, BigEndian(n, 8), rest, least, f, g);
  }

  lemma DecodeLabel(name: Bytes, least: nat, f: Fields)
    requires least <= TYPE_LABEL && |name| <= MAX_INT64
    ensures DecodeStream(Record(TYPE_LABEL, |name|, name), least, f) == Some(f.(name := name))
  {
    var s := Record(TYPE_LABEL, |name|, name);
    ReadBytesOfAppended(name, []);
    assert s + [] == s;
    DecodeFirst(TYPE_LABEL, |name|, name, [], least, f, f.(name := name));
  }

  lemma DecodeInvoiceRecord(invoices: set<Hash>, io: seq<Hash>, size: Uint64, rest: Bytes, least: nat, f: Fields)
    requires Enumerates(io, invoices) && |invoices| <= MAX_INT64 && least <= TYPE_INVOICES
    ensures DecodeStream(Record(TYPE_INVOICES, size, EncodeInvoices(io)) + rest, least, f) ==
            DecodeStream(rest, 8, f.(invoices := invoices))
  {
    InvoicesRoundTrip(invoices, io, rest);
    DecodeFirst(TYPE_INVOICES, size, EncodeInvoices(io), rest, least, f, f.(invoices := invoices));
  }

  lemma DecodePaymentRecord(m: Payments, po: seq<Hash>, size: Uint64, rest: Bytes, least: nat, f: Fields)
    requires Enumerates(po, m.Keys) && |m| <= MAX_INT64 && least <= TYPE_PAYMENTS
    ensures DecodeStream(Record(TYPE_PAYMENTS, size, EncodePayments(m, po)) + rest, least, f) ==
            DecodeStream(rest, 9, f.(payments := m))
  {
    PaymentsRoundTrip(m, po, rest);
    DecodeFirst(TYPE_PAYMENTS, size, EncodePayments(m, po), rest, least, f, f.(payments := m));
  }

  lemma DecodeTail(a: Account, io: seq<Hash>, po: seq<Hash>, least: nat, f: Fields)
    requires Fits(a) && Enumerates(io, a.invoices) && Enumerates(po, a.payments.Keys) && least <= TYPE_INVOICES
    ensures DecodeStream(TailRecords(a, io, po), least, f) ==
            Some(f.(invoices := a.invoices, payments := a.payments, name := a.name))
  {
    var last := Record(TYPE_LABEL, |a.name|, a.name);
    var size7, size8 := ToUint64(|a.invoices| * 32), ToUint64(|a.payments| * ENTRY_SIZE);
    var f1 := f.(invoices := a.invoices);
    DecodeInvoiceRecord(a.invoices, io, size7, Record(TYPE_PAYMENTS, size8, EncodePayments(a.payments, po)) + last, least, f);
    DecodePaymentRecord(a.payments, po, size8, last, 8, f1);
    DecodeLabel(a.name, 9, f1.(payments := a.payments));
  }

  /** Codec round trip: whatever order the maps were written in, with or without an
      expiry and for negative balances, decoding gives the account back. */
  lemma RoundTrip(x: StoredAccount, io: seq<Hash>, po: seq<Hash>)
    requires Fits(x.account) && Enumerates(io, x.account.invoices) && Enumerates(po, x.account.payments.Keys)
    ensures DeserializeAccount(Encode(x, io, po)) == Some(x)
  {
    var a := x.account;
    var r6 := ExpiryRecord(a) + TailRecords(a, io, po);
    var r5 := Record(TYPE_LAST_UPDATE, 8, BigEndian(ToUint64(x.lastUpdate), 8)) + r6;
    var r4 := Record(TYPE_CURRENT_BALANCE, 8, BigEndian(ToUint64(a.balance), 8)) + r5;
    var r3 := Record(TYPE_INITIAL_BALANCE, 8, BigEndian(a.initialBalance, 8)) + r4;
    var r2 := Record(TYPE_ACCOUNT_TYPE, 1, [x.accountType]) + r3;
    var f1 := NO_FIELDS.(id := x.id);
    var f2 := f1.(accountType := x.accountType);
    var f3 := f2.(initialBalance := a.initialBalance);
    var f4 := f3.(currentBalance := ToUint64(a.balance));
    var f5 := f4.(lastUpdate := ToUint64(x.lastUpdate));
    ReadBytesOfAppended(x.id, r2);
    DecodeFirst(TYPE_ID, 8, x.id, r2, 0, NO_FIELDS, f1);
    assert ([x.accountType] + r3)[1..] == r3;
    DecodeFirst(TYPE_ACCOUNT_TYPE, 1, [x.accountType], r3, 2, f1, f2);
    DecodeWord(TYPE_INITIAL_BALANCE, a.initialBalance, r4, 3, f2, f3);
    DecodeWord(TYPE_CURRENT_BALANCE, ToUint64(a.balance), r5, 4, f3, f4);
    DecodeWord(TYPE_LAST_UPDATE, ToUint64(x.lastUpdate), r6, 5, f4, f5);
    DecodeExpiryAndTail(a, io, po, f5);
    WordRoundTrip(0, a.balance);
    WordRoundTrip(0, x.lastUpdate);
    assert CopyID(x.id) == x.id;
  }

  lemma DecodeExpiryAndTail(a: Account, io: seq<Hash>, po: seq<Hash>, f: Fields)
    requires Fits(a) && Enumerates(io, a.invoices) && Enumerates(po, a.payments.Keys) && f.expirationDate == None
    ensures var r := DecodeStream(ExpiryRecord(a) + TailRecords(a, io, po), 6, f);
            && r.Some?
            && r.value == f.(invoices := a.invoices, payments := a.payments, name := a.name, expirationDate := r.value.expirationDate)
            && (if r.value.expirationDate.Some? then Some(ToInt64(r.value.expirationDate.value)) else None) == a.expiry
  {
    var tail := TailRecords(a, io, po);
    if a.expiry.Some? {
      var g := f.(expirationDate := Some(ToUint64(a.expiry.value)));
      DecodeWord(TYPE_EXPIRATION_DATE, ToUint64(a.expiry.value), tail, 6, f, g);
      DecodeTail(a, io, po, 7, g);
      WordRoundTrip(0, a.expiry.value);
    } else {
      assert ExpiryRecord(a) + tail == tail;
      DecodeTail(a, io, po, 6, f);
    }
  }

  /** Serialising writes the records in order; whatever it writes decodes to the account. */
  method SerializeAccount(x: StoredAccount) returns (w: Bytes)
    requires Fits(x.account)
    ensures DeserializeAccount(w) == Some(x)
    ensures w != []
  {
    var a := x.account;
    var invoices, io := InvoiceEntryMapEncoder(a.invoices);
    var payments, po := PaymentEntryMapEncoder(a.payments);
    var tail := Record(TYPE_INVOICES, ToUint64(|a.invoices| * 32), invoices) +
                (Record(TYPE_PAYMENTS, ToUint64(|a.payments| * ENTRY_SIZE), payments) +
                 Record(TYPE_LABEL, |a.name|, a.name));
    if a.expiry.Some? {
      tail := Record(TYPE_EXPIRATION_DATE, 8, BigEndian(ToUint64(a.expiry.value), 8)) + tail;
    } else {
      assert [] + tail == tail;
    }
    w := Record(TYPE_ID, 8, x.id) +
         (Record(TYPE_ACCOUNT_TYPE, 1, [x.accountType]) +
          (Record(TYPE_INITIAL_BALANCE, 8, BigEndian(a.initialBalance, 8)) +
           (Record(TYPE_CURRENT_BALANCE, 8, BigEndian(ToUint64(a.balance), 8)) +
            (Record(TYPE_LAST_UPDATE, 8, BigEndian(ToUint64(x.lastUpdate), 8)) + tail))));
    assert w == Encode(x, io, po);
    RoundTrip(x, io, po);
  }
}
