/** The relational backend of the key-value stores: rows under numeric names. */
module KvSql {
  import opened AccountTypes
  import opened KvTree
  import opened KvBolt

  /** A table of unique names with ids that are never reused. */
  datatype Names = Names(ids: map<string, nat>, next: nat)

  /** The namespace columns of a row; None is NULL. */
  datatype Space = Space(perm: bool, rule: nat, group: Option<nat>, feature: Option<nat>)

  datatype Row = Row(space: Space, key: string, value: Value)

  datatype Db = Db(rows: seq<Row>, rules: Names, features: Names, sessions: map<string, nat>)

  predicate NamesOk(t: Names) {
    && (forall n :: n in t.ids ==> t.ids[n] < t.next)
    && (forall m, n :: m in t.ids && n in t.ids && m != n ==> t.ids[m] != t.ids[n])
  }

  /** Inserts a name unless it is there. */
  function Ensure(t: Names, name: string): Names {
    if name in t.ids then t else Names(t.ids[name := t.next], t.next + 1)
  }

  /** The value of the first row with a namespace and key. */
  function Find(rows: seq<Row>, s: Space, key: string): Option<Value> {
    if rows == [] then None
    else if rows[0].space == s && rows[0].key == key then Some(rows[0].value)
    else Find(rows[1..], s, key)
  }

  /** Updates every row with a namespace and key. */
  function Updated(rows: seq<Row>, s: Space, key: string, v: Value): seq<Row> {
    if rows == [] then []
    else
      [if rows[0].space == s && rows[0].key == key then Row(s, key, v) else rows[0]] + Updated(rows[1..], s, key, v)
  }

  function Deleted(rows: seq<Row>, s: Space, key: string): seq<Row> {
    if rows == [] then []
    else if rows[0].space == s && rows[0].key == key then Deleted(rows[1..], s, key)
    else [rows[0]] + Deleted(rows[1..], s, key)
  }

  function OnlyPermanent(rows: seq<Row>): seq<Row> {
    if rows == [] then []
    else if !rows[0].space.perm then OnlyPermanent(rows[1..])
    else [rows[0]] + OnlyPermanent(rows[1..])
  }

  /** The unique index refuses a second row, but NULL columns are never equal to it. */
  function Inserted(rows: seq<Row>, r: Row): Option<seq<Row>> {
    if r.space.group.Some? && r.space.feature.Some? && Find(rows, r.space, r.key).Some? then None
    else Some(rows + [r])
  }

  // ---- What the row operations do to a lookup ----

  lemma {:induction false} FindAfterInsert(rows: seq<Row>, r: Row, s: Space, key: string)
    ensures Find(rows + [r], s, key) ==
            if Find(rows, s, key).None? && s == r.space && key == r.key then Some(r.value) else Find(rows, s, key)
  {
    if rows == [] {
      assert rows + [r] == [r];
    } else {
      assert (rows + [r])[1..] == rows[1..] + [r];
      FindAfterInsert(rows[1..], r, s, key);
    }
  }

  lemma {:induction false} FindAfterUpdate(rows: seq<Row>, t: Space, k: string, v: Value, s: Space, key: string)
    ensures Find(Updated(rows, t, k, v), s, key) ==
            if s == t && key == k && Find(rows, s, key).Some? then Some(v) else Find(rows, s, key)
  {
    if rows != [] {
      FindAfterUpdate(rows[1..], t, k, v, s, key);
    }
  }

  lemma {:induction false} FindAfterDelete(rows: seq<Row>, t: Space, k: string, s: Space, key: string)
    ensures Find(Deleted(rows, t, k), s, key) == if s == t && key == k then None else Find(rows, s, key)
  {
    if rows != [] {
      FindAfterDelete(rows[1..], t, k, s, key);
    }
  }

  lemma {:induction false} FindPermanent(rows: seq<Row>, s: Space, key: string)
    ensures Find(OnlyPermanent(rows), s, key) == if s.perm then Find(rows, s, key) else None
  {
    if rows != [] {
      FindPermanent(rows[1..], s, key);
    }
  }

  lemma {:induction false} FindNeedsRow(rows: seq<Row>, s: Space, key: string) returns (r: Row)
    requires Find(rows, s, key).Some?
    ensures r in rows && r.space == s
  {
    if rows[0].space == s && rows[0].key == key {
      r := rows[0];
    } else {
      r := FindNeedsRow(rows[1..], s, key);
    }
  }

  // ---- Cells in the rows ----

  predicate ScopeOk(s: Space, db: Db) {
    && s.rule in db.rules.ids.Values
    && (s.group.Some? ==> s.group.value in db.sessions.Values)
    && (s.feature.Some? ==> s.feature.value in db.features.ids.Values)
  }

  /** Names are unique and every row refers to existing ones. */
  ghost predicate Valid(db: Db) {
    && NamesOk(db.rules) && NamesOk(db.features)
    && (forall m, n :: m in db.sessions && n in db.sessions && m != n ==> db.sessions[m] != db.sessions[n])
    && (forall r :: r in db.rows ==> ScopeOk(r.space, db))
  }

  /** The namespace of a cell, if all its names are known. */
  function SpaceOf(db: Db, c: Cell): Option<Space> {
    if c.rule !in db.rules.ids || !KnownGroup(c.scope, db.sessions.Keys) then None
    else
      var rule := db.rules.ids[c.rule];
      match c.scope
      case Global => Some(Space(c.perm, rule, None, None))
      case Group(id) => Some(Space(c.perm, rule, Some(db.sessions[id]), None))
      case Feature(group, name) =>
        if name !in db.features.ids then None
        else Some(Space(c.perm, rule, Some(db.sessions[group]), Some(db.features.ids[name])))
  }

  /** Looking a cell up in the rows. */
  function RowLookup(db: Db, c: Cell): Option<Value> {
    var s := SpaceOf(db, c);
    if s.None? then None else Find(db.rows, s.value, c.key)
  }

  /** Different cells are in different rows. */
  lemma SpacesDistinct(db: Db, a: Cell, b: Cell)
    requires Valid(db) && SpaceOf(db, a).Some? && SpaceOf(db, a) == SpaceOf(db, b) && a.key == b.key
    ensures a == b
  {
  }

  lemma EnsureKeeps(t: Names, name: string)
    requires NamesOk(t)
    ensures var t' := Ensure(t, name);
            && NamesOk(t') && name in t'.ids && t.ids.Values <= t'.ids.Values
            && (forall n :: n in t.ids ==> n in t'.ids && t'.ids[n] == t.ids[n])
            && (forall n :: n in t'.ids && n !in t.ids ==> n == name && t'.ids[n] !in t.ids.Values)
  {
    var t' := Ensure(t, name);
    assert forall n :: n in t.ids ==> t'.ids[n] == t.ids[n];
  }

  /** A name that is new has no rows. */
  lemma NewNameUnused(db: Db, db': Db, x: Cell)
    requires Valid(db) && db'.rows == db.rows && db'.sessions == db.sessions
    requires SpaceOf(db', x).Some? && !ScopeOk(SpaceOf(db', x).value, db)
    ensures RowLookup(db', x).None?
  {
    if RowLookup(db', x).Some? {
      var r := FindNeedsRow(db.rows, SpaceOf(db', x).value, x.key);
    }
  }

  lemma RuleAdded(db: Db, name: string)
    requires Valid(db)
    ensures var db' := db.(rules := Ensure(db.rules, name));
            Valid(db') && forall x :: RowLookup(db', x) == RowLookup(db, x)
  {
    var db' := db.(rules := Ensure(db.rules, name));
    EnsureKeeps(db.rules, name);
    forall x ensures RowLookup(db', x) == RowLookup(db, x) {
      if SpaceOf(db', x).Some? && SpaceOf(db, x).None? {
        NewNameUnused(db, db', x);
      }
    }
  }

  lemma FeatureAdded(db: Db, name: string)
    requires Valid(db)
    ensures var db' := db.(features := Ensure(db.features, name));
            Valid(db') && forall x :: RowLookup(db', x) == RowLookup(db, x)
  {
    var db' := db.(features := Ensure(db.features, name));
    EnsureKeeps(db.features, name);
    forall x ensures RowLookup(db', x) == RowLookup(db, x) {
      if SpaceOf(db', x).Some? && SpaceOf(db, x).None? {
        NewNameUnused(db, db', x);
      }
    }
  }

  /** A new row sets its cell and no other. */
  lemma InsertSetsCell(db: Db, c: Cell, v: Value)
    requires Valid(db) && SpaceOf(db, c).Some? && RowLookup(db, c).None?
    ensures var rows := Inserted(db.rows, Row(SpaceOf(db, c).value, c.key, v));
            && rows.Some? && Valid(db.(rows := rows.value))
            && forall x :: RowLookup(db.(rows := rows.value), x) == if x == c then Some(v) else RowLookup(db, x)
  {
    var r := Row(SpaceOf(db, c).value, c.key, v);
    forall x ensures RowLookup(db.(rows := db.rows + [r]), x) == if x == c then Some(v) else RowLookup(db, x) {
      if SpaceOf(db, x).Some? {
        FindAfterInsert(db.rows, r, SpaceOf(db, x).value, x.key);
        if SpaceOf(db, x) == SpaceOf(db, c) && x.key == c.key {
          SpacesDistinct(db, x, c);
        }
      }
    }
  }

  lemma {:induction false} UpdatedScopes(rows: seq<Row>, s: Space, key: string, v: Value)
    ensures forall r :: r in Updated(rows, s, key, v) ==> r.space == s || r in rows
    ensures forall r :: r in Deleted(rows, s, key) ==> r in rows
    ensures forall r :: r in OnlyPermanent(rows) ==> r in rows
  {
    if rows != [] {
      UpdatedScopes(rows[1..], s, key, v);
    }
  }

  lemma UpdateSetsCell(db: Db, c: Cell, v: Value)
    requires Valid(db) && RowLookup(db, c).Some?
    ensures var db' := db.(rows := Updated(db.rows, SpaceOf(db, c).value, c.key, v));
            Valid(db') && forall x :: RowLookup(db', x) == if x == c then Some(v) else RowLookup(db, x)
  {
    var s := SpaceOf(db, c).value;
    var db' := db.(rows := Updated(db.rows, s, c.key, v));
    UpdatedScopes(db.rows, s, c.key, v);
    var r := FindNeedsRow(db.rows, s, c.key);
    forall x ensures RowLookup(db', x) == if x == c then Some(v) else RowLookup(db, x) {
      if SpaceOf(db, x).Some? {
        FindAfterUpdate(db.rows, s, c.key, v, SpaceOf(db, x).value, x.key);
        if SpaceOf(db, x) == SpaceOf(db, c) && x.key == c.key {
          SpacesDistinct(db, x, c);
        }
      }
    }
  }

  lemma DeleteClearsCell(db: Db, c: Cell)
    requires Valid(db) && SpaceOf(db, c).Some?
    ensures var db' := db.(rows := Deleted(db.rows, SpaceOf(db, c).value, c.key));
            Valid(db') && forall x :: RowLookup(db', x) == if x == c then None else RowLookup(db, x)
  {
    var s := SpaceOf(db, c).value;
    var db' := db.(rows := Deleted(db.rows, s, c.key));
    UpdatedScopes(db.rows, s, c.key, []);
    forall x ensures RowLookup(db', x) == if x == c then None else RowLookup(db, x) {
      if SpaceOf(db, x).Some? {
        FindAfterDelete(db.rows, s, c.key, SpaceOf(db, x).value, x.key);
        if SpaceOf(db, x) == SpaceOf(db, c) && x.key == c.key {
          SpacesDistinct(db, x, c);
        }
      }
    }
  }

  lemma PurgeClearsTemp(db: Db)
    requires Valid(db)
    ensures var db' := db.(rows := OnlyPermanent(db.rows));
            Valid(db') && forall x :: RowLookup(db', x) == if x.perm then RowLookup(db, x) else None
  {
    var db' := db.(rows := OnlyPermanent(db.rows));
    UpdatedScopes(db.rows, Space(true, 0, None, None), "", []);
    forall x ensures RowLookup(db', x) == if x.perm then RowLookup(db, x) else None {
      if SpaceOf(db, x).Some? {
        FindPermanent(db.rows, SpaceOf(db, x).value, x.key);
      }
    }
  }

  // ---- The store ----

  datatype Fields = Found(space: Space) | UnknownGroup | NoRows

  class SqlKvStore {
    var rows: seq<Row>
    var rules: Names
    var features: Names
    var sessions: map<string, nat>

    ghost function View(): Db
      reads this
    {
      Db(rows, rules, features, sessions)
    }

    constructor (known: map<string, nat>)
      requires forall m, n :: m in known && n in known && m != n ==> known[m] != known[n]
      ensures Valid(View()) && sessions == known && forall x :: RowLookup(View(), x) == None
    {
      rows, rules, features, sessions := [], Names(map[], 1), Names(map[], 1), known;
    }

    /** The namespace columns of a cell. A read fails on a missing name, a write inserts it. */
    method GenNamespaceFields(c: Cell, readOnly: bool) returns (f: Fields)
      requires Valid(View())
      modifies this
      ensures Valid(View()) && sessions == old(sessions) && rows == old(rows)
      ensures forall x :: RowLookup(View(), x) == old(RowLookup(View(), x))
      ensures readOnly ==> View() == old(View())
      ensures f.UnknownGroup? <==> !KnownGroup(c.scope, sessions.Keys)
      ensures f.Found? ==> SpaceOf(View(), c) == Some(f.space)
      ensures f.NoRows? ==> readOnly && SpaceOf(View(), c).None?
    {
      var group: Option<nat> := None;
      if !KnownGroup(c.scope, sessions.Keys) {
        return UnknownGroup;
      }
      match c.scope {
        case Global =>
        case Group(id) => group := Some(sessions[id]);
        case Feature(id, _) => group := Some(sessions[id]);
      }
      if readOnly && c.rule !in rules.ids {
        return NoRows;
      }
      RuleAdded(View(), c.rule);
      rules := Ensure(rules, c.rule);
      var feature: Option<nat> := None;
      if c.scope.Feature? {
        if readOnly && c.scope.name !in features.ids {
          return NoRows;
        }
        FeatureAdded(View(), c.scope.name);
        features := Ensure(features, c.scope.name);
        feature := Some(features.ids[c.scope.name]);
      }
      return Found(Space(c.perm, rules.ids[c.rule], group, feature));
    }

    /** A missing name and a missing row both read as no value. */
    method Get(c: Cell) returns (r: Option<Value>)
      requires Valid(View())
      modifies this
      ensures View() == old(View()) && r == RowLookup(View(), c)
    {
      var f := GenNamespaceFields(c, true);
      if !f.Found? {
        return None;
      }
      return Find(rows, f.space, c.key);
    }

    /** Setting a value changes its own cell and no other; only an unknown group is refused. */
    method Set(c: Cell, v: Value) returns (ok: bool)
      requires Valid(View())
      modifies this
      ensures Valid(View()) && sessions == old(sessions)
      ensures ok <==> KnownGroup(c.scope, sessions.Keys)
      ensures forall x :: RowLookup(View(), x) == if ok && x == c then Some(v) else old(RowLookup(View(), x))
    {
      var f := GenNamespaceFields(c, false);
      if !f.Found? {
        return false;
      }
      var oldValue := Find(rows, f.space, c.key);
      if oldValue.None? {
        InsertSetsCell(View(), c, v);
        var added := Inserted(rows, Row(f.space, c.key, v));
        rows := added.value;
      } else if oldValue.value != v {
        UpdateSetsCell(View(), c, v);
        rows := Updated(rows, f.space, c.key, v);
      }
      return true;
    }

    /** Deleting clears its own cell and no other, and is never refused. */
    method Del(c: Cell)
      requires Valid(View())
      modifies this
      ensures Valid(View()) && sessions == old(sessions)
      ensures forall x :: RowLookup(View(), x) == if x == c then None else old(RowLookup(View(), x))
    {
      var f := GenNamespaceFields(c, true);
      if f.Found? {
        DeleteClearsCell(View(), c);
        rows := Deleted(rows, f.space, c.key);
      }
    }

    /** Clears exactly the cells that are not permanent. */
    method DeleteTempKVStores()
      requires Valid(View())
      modifies this
      ensures Valid(View()) && sessions == old(sessions)
      ensures forall x :: RowLookup(View(), x) == if x.perm then old(RowLookup(View(), x)) else None
    {
      PurgeClearsTemp(View());
      rows := OnlyPermanent(rows);
    }
  }
}
