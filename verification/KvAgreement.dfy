/** Both backends of the key-value stores behave as one flat map from cells to values. */
module KvAgreement {
  import opened AccountTypes
  import opened KvTree
  import opened KvBolt
  import opened KvSql

  datatype Op = Read(cell: Cell) | Put(cell: Cell, value: Value) | Remove(cell: Cell) | Purge

  datatype Reply = Value(value: Option<seq<Byte>>) | Done(ok: bool)

  type Flat = map<Cell, Value>

  function Entry(m: Flat, c: Cell): Option<seq<Byte>> {
    if c in m then Some(m[c]) else None
  }

  /** The flat map after an operation. */
  function Next(m: Flat, known: set<string>, op: Op): Flat {
    match op
    case Read(_) => m
    case Put(c, v) => if KnownGroup(c.scope, known) then m[c := v] else m
    case Remove(c) => m - {c}
    case Purge => map c | c in m && c.perm :: m[c]
  }

  function Answer(m: Flat, known: set<string>, op: Op): Reply {
    match op
    case Read(c) => Value(Entry(m, c))
    case Put(c, _) => Done(KnownGroup(c.scope, known))
    case _ => Done(true)
  }

  function Final(m: Flat, known: set<string>, ops: seq<Op>): Flat
    decreases |ops|
  {
    if ops == [] then m else Final(Next(m, known, ops[0]), known, ops[1..])
  }

  function Answers(m: Flat, known: set<string>, ops: seq<Op>): seq<Reply>
    decreases |ops|
  {
    if ops == [] then []
    else [Answer(m, known, ops[0])] + Answers(Next(m, known, ops[0]), known, ops[1..])
  }

  /** What the operations so far left in a cell, looking back from the last one. */
  function LastWrite(m: Flat, known: set<string>, ops: seq<Op>, c: Cell): Option<seq<Byte>>
    decreases |ops|
  {
    if ops == [] then Entry(m, c)
    else
      match ops[|ops| - 1]
      case Put(d, v) => if d == c && KnownGroup(c.scope, known) then Some(v) else LastWrite(m, known, ops[..|ops| - 1], c)
      case Remove(d) => if d == c then None else LastWrite(m, known, ops[..|ops| - 1], c)
      case Purge => if c.perm then LastWrite(m, known, ops[..|ops| - 1], c) else None
      case Read(_) => LastWrite(m, known, ops[..|ops| - 1], c)
  }

  lemma {:induction false} FinalOfMore(m: Flat, known: set<string>, ops: seq<Op>, op: Op)
    ensures Final(m, known, ops + [op]) == Next(Final(m, known, ops), known, op)
    decreases |ops|
  {
    if ops == [] {
      assert ops + [op] == [op] && [op][1..] == [];
    } else {
      assert (ops + [op])[1..] == ops[1..] + [op];
      FinalOfMore(Next(m, known, ops[0]), known, ops[1..], op);
    }
  }

  /** Over every sequence of operations a read sees the last write to its cell. */
  lemma {:induction false} ReadsLastWrite(m: Flat, known: set<string>, ops: seq<Op>, c: Cell)
    ensures Answer(Final(m, known, ops), known, Read(c)) == Value(LastWrite(m, known, ops, c))
    decreases |ops|
  {
    if ops != [] {
      var front, op := ops[..|ops| - 1], ops[|ops| - 1];
      assert ops == front + [op];
      FinalOfMore(m, known, front, op);
      ReadsLastWrite(m, known, front, c);
    }
  }

  /** Names are not empty, and no key of a group is the name of its feature bucket. */
  predicate Portable(op: Op) {
    op.Purge? || (Named(PathOf(op.cell)) && op.cell.key != "" && !(op.cell.scope.Group? && op.cell.key == FEATURES))
  }

  ghost predicate BothHold(bolt: BoltKvStore, sql: SqlKvStore, m: Flat)
    reads bolt, sql
  {
    && bolt.Valid() && Valid(sql.View())
    && (forall c :: Lookup(bolt.rules, c) == Entry(m, c) && RowLookup(sql.View(), c) == Entry(m, c))
    && (forall c :: c in m ==> !(c.scope.Group? && c.key == FEATURES))
  }

  /** The tree asks whether the group exists, the rows whether a session has its alias. */
  predicate Agree(op: Op, groups: set<string>, aliases: set<string>) {
    op.Put? ==> (KnownGroup(op.cell.scope, groups) <==> KnownGroup(op.cell.scope, aliases))
  }

  /** One operation on both backends: each answers as the flat map does for what it knows
      of groups, and the answers are the same if and only if both know the group or none. */
  method StepBoth(bolt: BoltKvStore, sql: SqlKvStore, op: Op, groups: set<string>, ghost m: Flat) returns (b: Reply, q: Reply)
    requires BothHold(bolt, sql, m) && Portable(op)
    modifies bolt, sql
    ensures sql.sessions == old(sql.sessions)
    ensures b == Answer(m, groups, op) && q == Answer(m, sql.sessions.Keys, op)
    ensures b == q <==> Agree(op, groups, sql.sessions.Keys)
    ensures Agree(op, groups, sql.sessions.Keys) ==> BothHold(bolt, sql, Next(m, groups, op))
  {
    match op {
      case Read(c) =>
        var x := bolt.Get(c);
        var y := sql.Get(c);
        return Value(x), Value(y);
      case Put(c, v) =>
        b, q := PutBoth(bolt, sql, c, v, groups, m);
      case Remove(c) =>
        var x := bolt.Del(c);
        sql.Del(c);
        return Done(x), Done(true);
      case Purge =>
        var x := bolt.DeleteTempKVStores();
        sql.DeleteTempKVStores();
        return Done(x), Done(true);
    }
  }

  method PutBoth(bolt: BoltKvStore, sql: SqlKvStore, c: Cell, v: seq<Byte>, groups: set<string>, ghost m: Flat)
    returns (b: Reply, q: Reply)
    requires BothHold(bolt, sql, m) && Portable(Put(c, v))
    modifies bolt, sql
    ensures sql.sessions == old(sql.sessions)
    ensures b == Done(KnownGroup(c.scope, groups)) && q == Done(KnownGroup(c.scope, sql.sessions.Keys))
    ensures b == q ==> BothHold(bolt, sql, Next(m, groups, Put(c, v)))
  {
    var x := bolt.Set(c, v, groups);
    var y := sql.Set(c, v);
    return Done(x), Done(y);
  }

  /** Running the same operations on both backends gives the same replies all along, those
      of the flat map, as long as they agree on the groups that are written to. */
  method RunBoth(bolt: BoltKvStore, sql: SqlKvStore, ops: seq<Op>, groups: set<string>, ghost m: Flat)
    returns (boltReplies: seq<Reply>, sqlReplies: seq<Reply>)
    requires BothHold(bolt, sql, m)
    requires forall i :: 0 <= i < |ops| ==> Portable(ops[i]) && Agree(ops[i], groups, sql.sessions.Keys)
    modifies bolt, sql
    decreases |ops|
    ensures sql.sessions == old(sql.sessions) && BothHold(bolt, sql, Final(m, groups, ops))
    ensures boltReplies == sqlReplies == Answers(m, groups, ops)
  {
    if ops == [] {
      return [], [];
    }
    var b, q := StepBoth(bolt, sql, ops[0], groups, m);
    var bs, qs := RunBoth(bolt, sql, ops[1..], groups, Next(m, groups, ops[0]));
    boltReplies, sqlReplies := [b] + bs, [q] + qs;
  }
}
