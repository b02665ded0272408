/** Migrating the key-value stores from the bucket tree to rows. */
module KvMigration {
  import opened AccountTypes
  import opened KvTree
  import opened KvSql
  import opened KvCollect

  /** A session row: its id and the id of the first session of its group. */
  datatype Session = Session(id: nat, groupID: Option<nat>)

  type SessionMap = map<string, Session>

  /** A group name copied into an alias of four bytes. */
  function Alias(name: string): string {
    (name + ['\0', '\0', '\0', '\0'])[..4]
  }

  function InMap(sess: SessionMap): string -> bool {
    (name: string) => Alias(name) in sess
  }

  /** The alias of a group is that of its first session. */
  predicate Leads(sess: SessionMap, group: string) {
    |group| == 4 && group in sess && sess[group].groupID == Some(sess[group].id)
  }

  lemma AliasOfFour(name: string)
    requires |name| == 4
    ensures Alias(name) == name
  {
  }

  /** The session map lists the sessions that the rows may refer to. */
  predicate Mirrors(sess: SessionMap, sessions: map<string, nat>) {
    && sess.Keys == sessions.Keys
    && (forall a :: a in sess ==> |a| == 4 && sess[a].id == sessions[a])
  }

  predicate Placed(sess: SessionMap, c: Cell) {
    c.scope.Global? || Leads(sess, GroupOf(c.scope).value)
  }

  /** Every row of a group is under the group id of some session. */
  ghost predicate RowsGrouped(rows: seq<Row>, sess: SessionMap) {
    forall r :: r in rows && r.space.group.Some? ==> GroupID(sess, r.space.group)
  }

  ghost predicate GroupID(sess: SessionMap, group: Option<nat>) {
    exists a :: a in sess && sess[a].groupID == group
  }

  /** The group id of a session is that of a session which is the first of its group. */
  ghost predicate WellGrouped(sess: SessionMap) {
    forall a :: a in sess && sess[a].groupID.Some? ==>
      exists b :: b in sess && sess[b].groupID == sess[a].groupID && sess[b].groupID == Some(sess[b].id)
  }

  /** Only cells whose group is named by its first session are found in the rows. */
  lemma FoundIsPlaced(db: Db, sess: SessionMap, c: Cell)
    requires Valid(db) && Mirrors(sess, db.sessions) && RowsGrouped(db.rows, sess) && WellGrouped(sess)
    requires RowLookup(db, c).Some?
    ensures Placed(sess, c)
  {
    if !c.scope.Global? {
      var g := GroupOf(c.scope).value;
      var r := FindNeedsRow(db.rows, SpaceOf(db, c).value, c.key);
      assert r.space.group == Some(db.sessions[g]) && GroupID(sess, r.space.group);
      var a :| a in sess && sess[a].groupID == r.space.group;
      var b :| b in sess && sess[b].groupID == sess[a].groupID && sess[b].groupID == Some(sess[b].id);
      assert db.sessions[b] == db.sessions[g];
    }
  }

  /** More names are known, and nothing else changed. */
  ghost predicate MoreNames(a: Db, b: Db) {
    && Valid(b) && b.rows == a.rows && b.sessions == a.sessions
    && (forall x :: RowLookup(b, x) == RowLookup(a, x))
    && (forall x :: SpaceOf(a, x).Some? ==> SpaceOf(b, x) == SpaceOf(a, x))
  }

  method RuleID(sql: SqlKvStore, name: string) returns (id: nat)
    requires Valid(sql.View())
    modifies sql
    ensures MoreNames(old(sql.View()), sql.View())
    ensures name in sql.rules.ids && id == sql.rules.ids[name]
  {
    RuleAdded(sql.View(), name);
    sql.rules := Ensure(sql.rules, name);
    return sql.rules.ids[name];
  }

  method FeatureID(sql: SqlKvStore, name: string) returns (id: nat)
    requires Valid(sql.View())
    modifies sql
    ensures MoreNames(old(sql.View()), sql.View()) && sql.rules == old(sql.rules)
    ensures name in sql.features.ids && id == sql.features.ids[name]
  {
    FeatureAdded(sql.View(), name);
    sql.features := Ensure(sql.features, name);
    return sql.features.ids[name];
  }

  /** The entry is in the rows, and nothing else changed. */
  ghost predicate PairInserted(a: Db, b: Db, e: Entry, space: Option<Space>) {
    && Valid(b) && b.sessions == a.sessions && space.Some? && SpaceOf(b, e.cell) == space
    && (forall x :: RowLookup(b, x) == if x == e.cell then Some(e.value) else RowLookup(a, x))
    && (forall x :: SpaceOf(a, x).Some? ==> SpaceOf(b, x) == SpaceOf(a, x))
  }

  /** Adds one entry, under the group id of the session that has the alias. */
  method InsertPair(sql: SqlKvStore, sess: SessionMap, e: Entry) returns (r: Option<Space>)
    requires Valid(sql.View()) && Mirrors(sess, sql.sessions)
    modifies sql
    ensures Valid(sql.View()) && sql.sessions == old(sql.sessions)
    ensures RowsGrouped(old(sql.rows), sess) ==> RowsGrouped(sql.rows, sess)
    ensures Placed(sess, e.cell) && old(RowLookup(sql.View(), e.cell)).None? ==>
              PairInserted(old(sql.View()), sql.View(), e, r)
  {
    var c := e.cell;
    var rule := RuleID(sql, c.rule);
    var group: Option<nat> := None;
    if !c.scope.Global? {
      var alias := Alias(GroupOf(c.scope).value);
      if alias !in sess {
        AliasOfPlaced(sess, c);
        return None;
      }
      group := sess[alias].groupID;
      assert GroupID(sess, group);
    }
    var feature: Option<nat> := None;
    if c.scope.Feature? {
      var id := FeatureID(sql, c.scope.name);
      feature := Some(id);
    }
    r := AddRow(sql, sess, e, Space(c.perm, rule, group, feature));
  }

  lemma AliasOfPlaced(sess: SessionMap, c: Cell)
    ensures Placed(sess, c) && !c.scope.Global? ==> Alias(GroupOf(c.scope).value) in sess
  {
    if Placed(sess, c) && !c.scope.Global? {
      AliasOfFour(GroupOf(c.scope).value);
    }
  }

  lemma RowKeepsValid(db: Db, r: Row)
    requires Valid(db) && ScopeOk(r.space, db)
    ensures Valid(db.(rows := db.rows + [r]))
  {
  }

  lemma RowInserted(db: Db, e: Entry, space: Space)
    requires Valid(db) && SpaceOf(db, e.cell) == Some(space) && RowLookup(db, e.cell).None?
    ensures Inserted(db.rows, Row(space, e.cell.key, e.value)).Some?
    ensures PairInserted(db, db.(rows := db.rows + [Row(space, e.cell.key, e.value)]), e, Some(space))
  {
    InsertSetsCell(db, e.cell, e.value);
  }

  method AddRow(sql: SqlKvStore, sess: SessionMap, e: Entry, space: Space) returns (r: Option<Space>)
    requires Valid(sql.View()) && Mirrors(sess, sql.sessions)
    requires e.cell.rule in sql.rules.ids && space.rule == sql.rules.ids[e.cell.rule] && space.perm == e.cell.perm
    requires !e.cell.scope.Global? ==> Alias(GroupOf(e.cell.scope).value) in sess
    requires space.group.Some? ==> GroupID(sess, space.group)
    requires space.group == if e.cell.scope.Global? then None else sess[Alias(GroupOf(e.cell.scope).value)].groupID
    requires e.cell.scope.Feature? ==> e.cell.scope.name in sql.features.ids
    requires space.feature == if e.cell.scope.Feature? then Some(sql.features.ids[e.cell.scope.name]) else None
    modifies sql
    ensures Valid(sql.View()) && sql.sessions == old(sql.sessions)
    ensures RowsGrouped(old(sql.rows), sess) ==> RowsGrouped(sql.rows, sess)
    ensures Placed(sess, e.cell) && old(RowLookup(sql.View(), e.cell)).None? ==>
              PairInserted(old(sql.View()), sql.View(), e, r)
  {
    if Placed(sess, e.cell) && RowLookup(sql.View(), e.cell).None? {
      SpaceIsPlaced(sql.View(), sess, e.cell);
      RowInserted(sql.View(), e, space);
    }
    if space.group.Some? && space.group.value !in sql.sessions.Values {
      return None;
    }
    RowKeepsValid(sql.View(), Row(space, e.cell.key, e.value));
    var added := Inserted(sql.rows, Row(space, e.cell.key, e.value));
    if added.None? {
      return None;
    }
    sql.rows := added.value;
    return Some(space);
  }

  lemma SpaceIsPlaced(db: Db, sess: SessionMap, c: Cell)
    requires Mirrors(sess, db.sessions) && Placed(sess, c) && c.rule in db.rules.ids
    requires c.scope.Feature? ==> c.scope.name in db.features.ids
    ensures SpaceOf(db, c) ==
            Some(Space(c.perm, db.rules.ids[c.rule],
                       if c.scope.Global? then None else sess[Alias(GroupOf(c.scope).value)].groupID,
                       if c.scope.Feature? then Some(db.features.ids[c.scope.name]) else None))
  {
    if !c.scope.Global? {
      AliasOfFour(GroupOf(c.scope).value);
    }
  }

  // ---- The whole migration ----

  predicate HasBefore(es: seq<Entry>, n: nat, c: Cell)
    requires n <= |es|
  {
    exists j :: 0 <= j < n && es[j].cell == c
  }

  /** The rows hold the first entries and nothing else. */
  ghost predicate Holds(db: Db, es: seq<Entry>, spaces: seq<Space>) {
    && |spaces| <= |es|
    && (forall j :: 0 <= j < |spaces| ==>
          RowLookup(db, es[j].cell) == Some(es[j].value) && SpaceOf(db, es[j].cell) == Some(spaces[j]))
    && (forall c :: RowLookup(db, c).Some? ==> HasBefore(es, |spaces|, c))
  }

  predicate Distinct(es: seq<Entry>) {
    forall i, j :: 0 <= i < j < |es| ==> es[i].cell != es[j].cell
  }

  lemma HoldsNext(a: Db, b: Db, es: seq<Entry>, spaces: seq<Space>, space: Space)
    requires Distinct(es) && Holds(a, es, spaces) && |spaces| < |es|
    requires PairInserted(a, b, es[|spaces|], Some(space))
    ensures Holds(b, es, spaces + [space])
  {
    var n := |spaces|;
    forall c | RowLookup(b, c).Some? ensures HasBefore(es, n + 1, c) {
      if c == es[n].cell {
        assert es[n].cell == c;
      } else {
        assert HasBefore(es, n, c);
      }
    }
  }

  lemma NotYetHeld(db: Db, es: seq<Entry>, spaces: seq<Space>)
    requires Distinct(es) && Holds(db, es, spaces) && |spaces| < |es|
    ensures RowLookup(db, es[|spaces|].cell).None?
  {
  }

  /** Inserts all entries in order. */
  method InsertPairs(sql: SqlKvStore, sess: SessionMap, es: seq<Entry>) returns (r: Option<seq<Space>>)
    requires Valid(sql.View()) && Mirrors(sess, sql.sessions) && Distinct(es)
    requires forall x :: RowLookup(sql.View(), x).None?
    modifies sql
    ensures Valid(sql.View()) && sql.sessions == old(sql.sessions)
    ensures RowsGrouped(old(sql.rows), sess) ==> RowsGrouped(sql.rows, sess)
    ensures r.Some? ==> |r.value| == |es|
    ensures (forall e :: e in es ==> Placed(sess, e.cell)) ==> r.Some? && Holds(sql.View(), es, r.value)
  {
    ghost var placed := forall e :: e in es ==> Placed(sess, e.cell);
    var spaces: seq<Space> := [];
    while |spaces| < |es|
      invariant |spaces| <= |es| && Valid(sql.View()) && sql.sessions == old(sql.sessions)
      invariant RowsGrouped(old(sql.rows), sess) ==> RowsGrouped(sql.rows, sess)
      invariant placed ==> Holds(sql.View(), es, spaces)
      decreases |es| - |spaces|
    {
      ghost var before := sql.View();
      var e := es[|spaces|];
      var space := InsertPair(sql, sess, e);
      if placed {
        assert e in es;
        NotYetHeld(before, es, spaces);
        HoldsNext(before, sql.View(), es, spaces, space.value);
      }
      if space.None? {
        return None;
      }
      spaces := spaces + [space.value];
    }
    return Some(spaces);
  }

  /** Reads every entry back and compares. */
  method Validate(sql: SqlKvStore, es: seq<Entry>, spaces: seq<Space>) returns (ok: bool)
    requires |spaces| == |es|
    ensures ok <==> forall j :: 0 <= j < |es| ==>
              && (spaces[j].feature.Some? ==> spaces[j].group.Some?)
              && Find(sql.rows, spaces[j], es[j].cell.key) == Some(es[j].value)
  {
    for i := 0 to |es|
      invariant forall j :: 0 <= j < i ==>
                  && (spaces[j].feature.Some? ==> spaces[j].group.Some?)
                  && Find(sql.rows, spaces[j], es[j].cell.key) == Some(es[j].value)
    {
      if spaces[i].feature.Some? && spaces[i].group.None? {
        return false;
      }
      if Find(sql.rows, spaces[i], es[i].cell.key) != Some(es[i].value) {
        return false;
      }
    }
    return true;
  }

  /** Every group with values in the tree that is in the session map is named by the
      alias of its first session. */
  ghost predicate GroupsLead(root: Children, sess: SessionMap) {
    forall c :: Lookup(root, c).Some? && Kept(c, InMap(sess)) ==> Placed(sess, c)
  }

  /** The lookup of every cell through the rows is the lookup through the tree, but for
      cells of unknown groups, which are dropped. */
  ghost predicate SameLookups(db: Db, root: Children, sess: SessionMap) {
    forall c :: RowLookup(db, c) == if Kept(c, InMap(sess)) then Lookup(root, c) else None
  }

  /** The migration accepts the trees of the expected layout. Afterwards every lookup
      through the rows is the lookup through the tree, with values of unknown groups
      dropped and nothing invented, if and only if every migrated group is named by the
      alias of its first session; and no cell of another group is found. */
  method Migrate(root: Children, sql: SqlKvStore, sess: SessionMap) returns (ok: bool)
    requires Valid(sql.View()) && Mirrors(sess, sql.sessions)
    requires forall x :: RowLookup(sql.View(), x).None?
    modifies sql
    ensures ok ==> MainShaped(root, true, InMap(sess)) && MainShaped(root, false, InMap(sess))
    ensures GroupsLead(root, sess) && MainShaped(root, true, InMap(sess)) && MainShaped(root, false, InMap(sess)) ==> ok
    ensures GroupsLead(root, sess) && ok ==> SameLookups(sql.View(), root, sess)
    ensures WellGrouped(sess) && RowsGrouped(old(sql.rows), sess) && ok ==>
              && (SameLookups(sql.View(), root, sess) <==> GroupsLead(root, sess))
              && forall c :: !Placed(sess, c) ==> RowLookup(sql.View(), c).None?
  {
    var es := CollectAllPairs(root, InMap(sess));
    if es.None? {
      return false;
    }
    ghost var kept := (c: Cell) => Kept(c, InMap(sess));
    if GroupsLead(root, sess) {
      EntriesPlaced(root, sess, es.value, kept);
    }
    var spaces := InsertPairs(sql, sess, es.value);
    if spaces.None? {
      return false;
    }
    ok := Validate(sql, es.value, spaces.value);
    if GroupsLead(root, sess) {
      HeldIsValid(sql.View(), es.value, spaces.value);
      HeldIsTree(sql.View(), root, es.value, spaces.value, kept);
    }
    if WellGrouped(sess) && RowsGrouped(sql.rows, sess) {
      OthersNotFound(sql.View(), root, sess);
    }
  }

  /** A group that is not led makes some lookup differ. */
  lemma OthersNotFound(db: Db, root: Children, sess: SessionMap)
    requires Valid(db) && Mirrors(sess, db.sessions) && RowsGrouped(db.rows, sess) && WellGrouped(sess)
    ensures forall c :: !Placed(sess, c) ==> RowLookup(db, c).None?
    ensures !GroupsLead(root, sess) ==> !SameLookups(db, root, sess)
  {
    forall c | !Placed(sess, c) ensures RowLookup(db, c).None? {
      if RowLookup(db, c).Some? {
        FoundIsPlaced(db, sess, c);
      }
    }
    if !GroupsLead(root, sess) {
      var c :| Lookup(root, c).Some? && Kept(c, InMap(sess)) && !Placed(sess, c);
      assert RowLookup(db, c).None?;
    }
  }

  lemma EntriesPlaced(root: Children, sess: SessionMap, es: seq<Entry>, kept: Region)
    requires GroupsLead(root, sess) && Lists(es, root, kept) && forall c :: kept(c) ==> Kept(c, InMap(sess))
    ensures forall e :: e in es ==> Placed(sess, e.cell)
  {
  }

  lemma HeldIsValid(db: Db, es: seq<Entry>, spaces: seq<Space>)
    requires Holds(db, es, spaces) && |spaces| == |es|
    ensures forall j :: 0 <= j < |es| ==>
              && (spaces[j].feature.Some? ==> spaces[j].group.Some?)
              && Find(db.rows, spaces[j], es[j].cell.key) == Some(es[j].value)
  {
    forall j | 0 <= j < |es|
      ensures (spaces[j].feature.Some? ==> spaces[j].group.Some?) &&
              Find(db.rows, spaces[j], es[j].cell.key) == Some(es[j].value)
    {
      assert RowLookup(db, es[j].cell) == Some(es[j].value);
    }
  }

  lemma HeldIsTree(db: Db, root: Children, es: seq<Entry>, spaces: seq<Space>, kept: Region)
    requires Holds(db, es, spaces) && |spaces| == |es| && Lists(es, root, kept)
    ensures forall c :: RowLookup(db, c) == if kept(c) then Lookup(root, c) else None
  {
    forall c ensures RowLookup(db, c) == if kept(c) then Lookup(root, c) else None {
      if RowLookup(db, c).Some? {
        assert HasBefore(es, |es|, c);
        var j :| 0 <= j < |es| && es[j].cell == c;
        assert RowLookup(db, es[j].cell) == Some(es[j].value);
      } else if kept(c) && Lookup(root, c).Some? {
        assert Has(es, c);
        var j :| 0 <= j < |es| && es[j].cell == c;
        assert RowLookup(db, es[j].cell) == Some(es[j].value);
      }
    }
  }

  /** The condition on groups is exact: a row is found again under its own group if and
      only if the alias is that of the first session of the group. */
  lemma FoundAgainIff(db: Db, sess: SessionMap, c: Cell, v: Value, feature: Option<nat>)
    requires Valid(db) && Mirrors(sess, db.sessions) && c.rule in db.rules.ids && !c.scope.Global?
    requires |GroupOf(c.scope).value| == 4 && GroupOf(c.scope).value in sess
    requires c.scope.Feature? ==> c.scope.name in db.features.ids
    requires feature == if c.scope.Feature? then Some(db.features.ids[c.scope.name]) else None
    requires RowLookup(db, c).None?
    ensures var group := GroupOf(c.scope).value;
            var row := Row(Space(c.perm, db.rules.ids[c.rule], sess[group].groupID, feature), c.key, v);
            RowLookup(db.(rows := db.rows + [row]), c) == Some(v) <==> Leads(sess, group)
  {
    var group := GroupOf(c.scope).value;
    var row := Row(Space(c.perm, db.rules.ids[c.rule], sess[group].groupID, feature), c.key, v);
    FindAfterInsert(db.rows, row, SpaceOf(db, c).value, c.key);
  }

  /** Every tree that the store can produce has the expected layout. */
  lemma {:induction false} ShapeWeakens(b: Children, kind: Kind, matters: string -> bool)
    requires Shaped(b, kind, AllMatter)
    ensures Shaped(b, kind, matters)
    decreases Rank(kind)
  {
    forall n | n in b ensures ChildShaped(b[n], n, kind, matters) {
      assert ChildShaped(b[n], n, kind, AllMatter);
      if b[n].Bucket? {
        ShapeWeakens(b[n].children, ChildKind(kind, n).value, matters);
      }
    }
  }

  lemma StoreIsMigratable(root: Children, sess: SessionMap)
    requires Shaped(root, Root, AllMatter)
    ensures MainShaped(root, true, InMap(sess)) && MainShaped(root, false, InMap(sess))
  {
    forall perm: bool ensures MainShaped(root, perm, InMap(sess)) {
      var name := MainKey(perm);
      if name in root {
        assert ChildShaped(root[name], name, Root, AllMatter);
        if root[name].Bucket? {
          ShapeWeakens(root[name].children, Main, InMap(sess));
        }
      }
    }
  }
}
