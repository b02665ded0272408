/** The first half of the key-value migration: walking the bucket tree. */
module KvCollect {
  import opened AccountTypes
  import opened KvTree
  import opened KvBolt

  datatype Entry = Entry(cell: Cell, value: Value)

  type Region = Cell -> bool

  predicate Has(es: seq<Entry>, c: Cell) {
    exists i :: 0 <= i < |es| && es[i].cell == c
  }

  /** The entries are, each once, exactly the values of the tree in a region. */
  ghost predicate Lists(es: seq<Entry>, root: Children, region: Region) {
    && (forall i, j :: 0 <= i < j < |es| ==> es[i].cell != es[j].cell)
    && (forall i :: 0 <= i < |es| ==> region(es[i].cell) && Lookup(root, es[i].cell) == Some(es[i].value))
    && (forall c :: region(c) && Lookup(root, c).Some? ==> Has(es, c))
  }

  lemma ListsJoin(a: seq<Entry>, f: Region, b: seq<Entry>, g: Region, root: Children, h: Region)
    requires Lists(a, root, f) && Lists(b, root, g)
    requires forall c :: !(f(c) && g(c))
    requires forall c :: Lookup(root, c).Some? ==> (h(c) <==> f(c) || g(c))
    ensures Lists(a + b, root, h)
  {
    var es := a + b;
    forall c | h(c) && Lookup(root, c).Some? ensures Has(es, c) {
      if f(c) {
        var i :| 0 <= i < |a| && a[i].cell == c;
        assert es[i].cell == c;
      } else {
        var i :| 0 <= i < |b| && b[i].cell == c;
        assert es[|a| + i].cell == c;
      }
    }
  }

  lemma ListsSame(es: seq<Entry>, root: Children, f: Region, h: Region)
    requires Lists(es, root, f)
    requires forall c :: Lookup(root, c).Some? ==> (h(c) <==> f(c))
    ensures Lists(es, root, h)
  {
  }

  lemma ListsNothing(root: Children, region: Region)
    requires forall c :: region(c) ==> Lookup(root, c).None?
    ensures Lists([], root, region)
  {
  }

  // ---- Regions ----

  function StoreOf(perm: bool, rule: string, scope: Scope): Region {
    (c: Cell) => c.perm == perm && c.rule == rule && c.scope == scope
  }

  function KeysOf(perm: bool, rule: string, scope: Scope, keys: set<string>): Region {
    (c: Cell) => c.perm == perm && c.rule == rule && c.scope == scope && c.key in keys
  }

  function FeaturesOf(perm: bool, rule: string, group: string, names: set<string>): Region {
    (c: Cell) => c.perm == perm && c.rule == rule && c.scope.Feature? && c.scope.group == group && c.scope.name in names
  }

  function GroupOf(s: Scope): Option<string> {
    match s
    case Global => None
    case Group(id) => Some(id)
    case Feature(group, _) => Some(group)
  }

  function GroupsOf(perm: bool, rule: string, groups: set<string>, matters: string -> bool): Region {
    (c: Cell) => c.perm == perm && c.rule == rule && !c.scope.Global? &&
                 GroupOf(c.scope).value in groups && matters(GroupOf(c.scope).value)
  }

  predicate Kept(c: Cell, matters: string -> bool) {
    c.scope.Global? || matters(GroupOf(c.scope).value)
  }

  function RulesOf(perm: bool, rules: set<string>, matters: string -> bool): Region {
    (c: Cell) => c.perm == perm && c.rule in rules && Kept(c, matters)
  }

  // ---- The walk ----

  predicate NoBuckets(b: Children) {
    forall name :: name in b ==> b[name].Leaf?
  }

  /** The values of one bucket. Buckets in it are passed over, or refused. */
  method CollectKVPairs(bkt: Children, errorOnBuckets: bool, perm: bool, rule: string, scope: Scope, ghost root: Children)
    returns (r: Option<seq<Entry>>)
    requires forall key :: ValueIn(bkt, key) == Lookup(root, Cell(perm, rule, scope, key))
    ensures r.None? <==> errorOnBuckets && !NoBuckets(bkt)
    ensures r.Some? ==> Lists(r.value, root, StoreOf(perm, rule, scope))
  {
    var es: seq<Entry> := [];
    var rest, done := bkt.Keys, {};
    while rest != {}
      invariant rest + done == bkt.Keys && rest !! done
      invariant errorOnBuckets ==> forall k :: k in done ==> bkt[k].Leaf?
      invariant Lists(es, root, KeysOf(perm, rule, scope, done))
      decreases rest
    {
      var key :| key in rest;
      ghost var before := KeysOf(perm, rule, scope, done);
      rest, done := rest - {key}, done + {key};
      var c := Cell(perm, rule, scope, key);
      if bkt[key].Bucket? {
        if errorOnBuckets {
          return None;
        }
        assert Lookup(root, c).None?;
        ListsSame(es, root, before, KeysOf(perm, rule, scope, done));
      } else {
        OneEntry(c, root);
        ListsJoin(es, before, [Entry(c, bkt[key].value)], KeysOf(perm, rule, scope, {key}), root, KeysOf(perm, rule, scope, done));
        es := es + [Entry(c, bkt[key].value)];
      }
    }
    ListsSame(es, root, KeysOf(perm, rule, scope, done), StoreOf(perm, rule, scope));
    return Some(es);
  }

  lemma OneEntry(c: Cell, root: Children)
    requires Lookup(root, c).Some?
    ensures Lists([Entry(c, Lookup(root, c).value)], root, KeysOf(c.perm, c.rule, c.scope, {c.key}))
  {
    var es := [Entry(c, Lookup(root, c).value)];
    assert es[0].cell == c;
  }

  /** A bucket may hold sub-buckets of the given names only, and values if allowed. */
  predicate KeysVerified(bkt: Children, errorOnKeyValues: bool, keys: set<string>) {
    forall name :: name in bkt ==> if bkt[name].Leaf? then !errorOnKeyValues else name in keys
  }

  method VerifyBktKeys(bkt: Children, errorOnKeyValues: bool, keys: set<string>) returns (ok: bool)
    ensures ok <==> KeysVerified(bkt, errorOnKeyValues, keys)
  {
    var rest := bkt.Keys;
    while rest != {}
      invariant rest <= bkt.Keys
      invariant forall n :: n in bkt && n !in rest ==> if bkt[n].Leaf? then !errorOnKeyValues else n in keys
      decreases rest
    {
      var name :| name in rest;
      rest := rest - {name};
      if bkt[name].Leaf? {
        if errorOnKeyValues {
          return false;
        }
      } else if name !in keys {
        return false;
      }
    }
    return true;
  }

  /** A cell below an open bucket is looked up from there. */
  lemma LookupFrom(root: Children, p: seq<string>, q: seq<string>, c: Cell)
    requires PathOf(c) == p + q
    ensures Lookup(root, c) == if Open(root, p).None? then None else ValueAt(Open(root, p).value, q, c.key)
  {
    if Open(root, p).Some? {
      OpenBelow(root, p, q);
    } else if Open(root, p + q).Some? {
      OpenAbove(root, p, q);
    }
  }

  lemma OpenChild(b: Children, name: string)
    ensures Open(b, [name]) == if name in b && b[name].Bucket? then Some(b[name].children) else None
  {
    var p := [name];
    assert p[1..] == [];
  }

  function FeaturePath(perm: bool, rule: string, group: string): seq<string> {
    [MainKey(perm), rule, SESSIONS, group, FEATURES]
  }

  lemma FeatureLookup(root: Children, bkt: Children, perm: bool, rule: string, group: string, name: string, key: string)
    requires Open(root, FeaturePath(perm, rule, group)) == Some(bkt)
    ensures Lookup(root, Cell(perm, rule, Feature(group, name), key)) ==
            if name in bkt && bkt[name].Bucket? then ValueIn(bkt[name].children, key) else None
  {
    var c := Cell(perm, rule, Feature(group, name), key);
    assert PathOf(c) == FeaturePath(perm, rule, group) + [name];
    LookupFrom(root, FeaturePath(perm, rule, group), [name], c);
    OpenChild(bkt, name);
  }

  /** The stores of the features of one group. */
  method CollectFeatures(bkt: Children, perm: bool, rule: string, group: string,
                         ghost root: Children, ghost matters: string -> bool)
    returns (r: Option<seq<Entry>>)
    requires Open(root, FeaturePath(perm, rule, group)) == Some(bkt)
    ensures r.Some? <==> Shaped(bkt, Features, matters)
    ensures r.Some? ==> Lists(r.value, root, FeaturesOf(perm, rule, group, bkt.Keys))
  {
    var es: seq<Entry> := [];
    var rest, done := bkt.Keys, {};
    while rest != {}
      invariant rest + done == bkt.Keys && rest !! done
      invariant forall n :: n in done ==> ChildShaped(bkt[n], n, Features, matters)
      invariant Lists(es, root, FeaturesOf(perm, rule, group, done))
      decreases rest
    {
      var name :| name in rest;
      ghost var before := FeaturesOf(perm, rule, group, done);
      rest, done := rest - {name}, done + {name};
      if bkt[name].Leaf? {
        assert !ChildShaped(bkt[name], name, Features, matters);
        return None;
      }
      forall key ensures ValueIn(bkt[name].children, key) == Lookup(root, Cell(perm, rule, Feature(group, name), key)) {
        FeatureLookup(root, bkt, perm, rule, group, name, key);
      }
      var pairs := CollectKVPairs(bkt[name].children, true, perm, rule, Feature(group, name), root);
      PlainShape(bkt[name].children, matters);
      if pairs.None? {
        assert !ChildShaped(bkt[name], name, Features, matters);
        return None;
      }
      ListsJoin(es, before, pairs.value, StoreOf(perm, rule, Feature(group, name)), root, FeaturesOf(perm, rule, group, done));
      es := es + pairs.value;
    }
    return Some(es);
  }

  lemma PlainShape(b: Children, matters: string -> bool)
    ensures Shaped(b, Plain, matters) <==> NoBuckets(b)
  {
    assert forall n :: n in b ==> (ChildShaped(b[n], n, Plain, matters) <==> b[n].Leaf?);
  }

  function GroupPath(perm: bool, rule: string, group: string): seq<string> {
    [MainKey(perm), rule, SESSIONS, group]
  }

  lemma GroupShape(b: Children, matters: string -> bool)
    ensures Shaped(b, OneGroup, matters) <==>
              KeysVerified(b, false, {FEATURES}) &&
              (FEATURES in b && b[FEATURES].Bucket? ==> Shaped(b[FEATURES].children, Features, matters))
  {
    if Shaped(b, OneGroup, matters) && FEATURES in b {
      assert ChildShaped(b[FEATURES], FEATURES, OneGroup, matters);
    }
    if KeysVerified(b, false, {FEATURES}) {
      assert forall n :: n in b && n != FEATURES ==> ChildShaped(b[n], n, OneGroup, matters);
    } else {
      var n :| n in b && b[n].Bucket? && n !in {FEATURES};
      assert !ChildShaped(b[n], n, OneGroup, matters);
    }
  }

  /** No feature of a group has a value when the group has no feature bucket. */
  lemma NoFeatures(root: Children, bkt: Children, perm: bool, rule: string, group: string, c: Cell)
    requires Open(root, GroupPath(perm, rule, group)) == Some(bkt) && !(FEATURES in bkt && bkt[FEATURES].Bucket?)
    requires c.perm == perm && c.rule == rule && c.scope.Feature? && c.scope.group == group
    ensures Lookup(root, c).None?
  {
    var q := [FEATURES, c.scope.name];
    assert PathOf(c) == GroupPath(perm, rule, group) + q;
    LookupFrom(root, GroupPath(perm, rule, group), q, c);
  }

  /** A feature that is not in the feature bucket has no values. */
  lemma OtherFeatures(root: Children, bkt: Children, perm: bool, rule: string, group: string, c: Cell)
    requires Open(root, FeaturePath(perm, rule, group)) == Some(bkt)
    requires c.perm == perm && c.rule == rule && c.scope.Feature? && c.scope.group == group && Lookup(root, c).Some?
    ensures c.scope.name in bkt
  {
    FeatureLookup(root, bkt, perm, rule, group, c.scope.name, c.key);
  }

  lemma GroupLookup(root: Children, bkt: Children, perm: bool, rule: string, group: string)
    requires Open(root, GroupPath(perm, rule, group)) == Some(bkt)
    ensures forall key :: ValueIn(bkt, key) == Lookup(root, Cell(perm, rule, Group(group), key))
    ensures FEATURES in bkt && bkt[FEATURES].Bucket? ==>
              Open(root, FeaturePath(perm, rule, group)) == Some(bkt[FEATURES].children)
  {
    var p := GroupPath(perm, rule, group);
    forall key ensures ValueIn(bkt, key) == Lookup(root, Cell(perm, rule, Group(group), key)) {
      assert PathOf(Cell(perm, rule, Group(group), key)) == p;
    }
    assert FeaturePath(perm, rule, group) == p + [FEATURES];
    OpenBelow(root, p, [FEATURES]);
    OpenChild(bkt, FEATURES);
  }

  lemma WithoutFeatures(root: Children, bkt: Children, perm: bool, rule: string, group: string, matters: string -> bool)
    requires Open(root, GroupPath(perm, rule, group)) == Some(bkt) && !(FEATURES in bkt && bkt[FEATURES].Bucket?)
    requires matters(group)
    ensures forall c :: Lookup(root, c).Some? ==>
              (GroupsOf(perm, rule, {group}, matters)(c) <==> StoreOf(perm, rule, Group(group))(c))
  {
    forall c | Lookup(root, c).Some?
      ensures GroupsOf(perm, rule, {group}, matters)(c) <==> StoreOf(perm, rule, Group(group))(c)
    {
      if c.perm == perm && c.rule == rule && c.scope.Feature? && c.scope.group == group {
        NoFeatures(root, bkt, perm, rule, group, c);
      }
      assert c.scope.Group? ==> (c.scope == Group(group) <==> GroupOf(c.scope).value == group);
    }
  }

  lemma WithFeatures(root: Children, below: Children, perm: bool, rule: string, group: string, matters: string -> bool)
    requires Open(root, FeaturePath(perm, rule, group)) == Some(below) && matters(group)
    ensures forall c :: Lookup(root, c).Some? ==>
              (GroupsOf(perm, rule, {group}, matters)(c) <==>
               StoreOf(perm, rule, Group(group))(c) || FeaturesOf(perm, rule, group, below.Keys)(c))
  {
    forall c | Lookup(root, c).Some?
      ensures GroupsOf(perm, rule, {group}, matters)(c) <==>
              StoreOf(perm, rule, Group(group))(c) || FeaturesOf(perm, rule, group, below.Keys)(c)
    {
      if c.perm == perm && c.rule == rule && c.scope.Feature? && c.scope.group == group {
        OtherFeatures(root, below, perm, rule, group, c);
      }
      assert c.scope.Feature? ==> (c.scope.group == group <==> GroupOf(c.scope).value == group);
      assert c.scope.Group? ==> (c.scope == Group(group) <==> GroupOf(c.scope).value == group);
    }
  }

  /** The store of one group, then those of its features. */
  method CollectGroup(bkt: Children, perm: bool, rule: string, group: string,
                      ghost root: Children, ghost matters: string -> bool)
    returns (r: Option<seq<Entry>>)
    requires Open(root, GroupPath(perm, rule, group)) == Some(bkt) && matters(group)
    ensures r.Some? <==> Shaped(bkt, OneGroup, matters)
    ensures r.Some? ==> Lists(r.value, root, GroupsOf(perm, rule, {group}, matters))
  {
    GroupLookup(root, bkt, perm, rule, group);
    GroupShape(bkt, matters);
    var own := CollectKVPairs(bkt, false, perm, rule, Group(group), root);
    var ok := VerifyBktKeys(bkt, false, {FEATURES});
    if !ok {
      return None;
    }
    ghost var store, whole := StoreOf(perm, rule, Group(group)), GroupsOf(perm, rule, {group}, matters);
    if !(FEATURES in bkt && bkt[FEATURES].Bucket?) {
      WithoutFeatures(root, bkt, perm, rule, group, matters);
      ListsSame(own.value, root, store, whole);
      return own;
    }
    var below := bkt[FEATURES].children;
    var features := CollectFeatures(below, perm, rule, group, root, matters);
    if features.None? {
      return None;
    }
    ghost var named := FeaturesOf(perm, rule, group, below.Keys);
    WithFeatures(root, below, perm, rule, group, matters);
    ListsJoin(own.value, store, features.value, named, root, whole);
    return Some(own.value + features.value);
  }

  function SessionsPath(perm: bool, rule: string): seq<string> {
    [MainKey(perm), rule, SESSIONS]
  }

  /** The stores of all groups of a rule; groups that do not matter are passed over. */
  method CollectGroups(bkt: Children, perm: bool, rule: string, matters: string -> bool, ghost root: Children)
    returns (r: Option<seq<Entry>>)
    requires Open(root, SessionsPath(perm, rule)) == Some(bkt)
    ensures r.Some? <==> Shaped(bkt, Groups, matters)
    ensures r.Some? ==> Lists(r.value, root, GroupsOf(perm, rule, bkt.Keys, matters))
  {
    var es: seq<Entry> := [];
    var rest, done := bkt.Keys, {};
    while rest != {}
      invariant rest + done == bkt.Keys && rest !! done
      invariant forall n :: n in done ==> ChildShaped(bkt[n], n, Groups, matters)
      invariant Lists(es, root, GroupsOf(perm, rule, done, matters))
      decreases rest
    {
      var group :| group in rest;
      ghost var before := GroupsOf(perm, rule, done, matters);
      rest, done := rest - {group}, done + {group};
      if bkt[group].Leaf? {
        assert !ChildShaped(bkt[group], group, Groups, matters);
        return None;
      }
      if !matters(group) {
        ListsSame(es, root, before, GroupsOf(perm, rule, done, matters));
      } else {
        GroupOpens(root, bkt, perm, rule, group);
        var pairs := CollectGroup(bkt[group].children, perm, rule, group, root, matters);
        if pairs.None? {
          assert !ChildShaped(bkt[group], group, Groups, matters);
          return None;
        }
        ListsJoin(es, before, pairs.value, GroupsOf(perm, rule, {group}, matters), root, GroupsOf(perm, rule, done, matters));
        es := es + pairs.value;
      }
    }
    return Some(es);
  }

  lemma GroupOpens(root: Children, bkt: Children, perm: bool, rule: string, group: string)
    requires Open(root, SessionsPath(perm, rule)) == Some(bkt) && group in bkt && bkt[group].Bucket?
    ensures Open(root, GroupPath(perm, rule, group)) == Some(bkt[group].children)
  {
    assert GroupPath(perm, rule, group) == SessionsPath(perm, rule) + [group];
    OpenBelow(root, SessionsPath(perm, rule), [group]);
    OpenChild(bkt, group);
  }

  // ---- One rule ----

  function SubBucket(b: Children, name: string): Option<Children> {
    if name in b && b[name].Bucket? then Some(b[name].children) else None
  }

  lemma RuleShape(b: Children, matters: string -> bool)
    ensures Shaped(b, Rule, matters) <==>
              && KeysVerified(b, true, {GLOBAL, SESSIONS})
              && (SubBucket(b, GLOBAL).Some? ==> NoBuckets(SubBucket(b, GLOBAL).value))
              && (SubBucket(b, SESSIONS).Some? ==> Shaped(SubBucket(b, SESSIONS).value, Groups, matters))
  {
    assert GLOBAL != SESSIONS by {
      assert |GLOBAL| != |SESSIONS|;
    }
    forall n | n in b
      ensures ChildShaped(b[n], n, Rule, matters) <==>
                && b[n].Bucket? && n in {GLOBAL, SESSIONS}
                && (n == GLOBAL ==> NoBuckets(b[n].children))
                && (n == SESSIONS ==> Shaped(b[n].children, Groups, matters))
    {
      if b[n].Bucket? {
        PlainShape(b[n].children, matters);
      }
    }
  }

  function RulePath(perm: bool, rule: string): seq<string> {
    [MainKey(perm), rule]
  }

  lemma RuleLookup(root: Children, bkt: Children, perm: bool, rule: string, c: Cell)
    requires Open(root, RulePath(perm, rule)) == Some(bkt) && c.perm == perm && c.rule == rule
    ensures c.scope.Global? ==>
              Lookup(root, c) == if SubBucket(bkt, GLOBAL).None? then None else ValueIn(SubBucket(bkt, GLOBAL).value, c.key)
    ensures !c.scope.Global? && Lookup(root, c).Some? ==>
              SubBucket(bkt, SESSIONS).Some? && GroupOf(c.scope).value in SubBucket(bkt, SESSIONS).value
  {
    var p := RulePath(perm, rule);
    var q := PathOf(c)[2..];
    assert PathOf(c) == p + q;
    LookupFrom(root, p, q, c);
    if c.scope.Global? {
      assert q == [GLOBAL];
      OpenChild(bkt, GLOBAL);
    } else {
      assert q[0] == SESSIONS && q[1..][0] == GroupOf(c.scope).value;
      assert Lookup(root, c).Some? ==> Open(bkt[SESSIONS].children, q[1..]).Some?;
    }
  }

  lemma SessionsOpen(root: Children, bkt: Children, perm: bool, rule: string)
    requires Open(root, RulePath(perm, rule)) == Some(bkt) && SubBucket(bkt, SESSIONS).Some?
    ensures Open(root, SessionsPath(perm, rule)) == SubBucket(bkt, SESSIONS)
  {
    assert SessionsPath(perm, rule) == RulePath(perm, rule) + [SESSIONS];
    OpenBelow(root, RulePath(perm, rule), [SESSIONS]);
    OpenChild(bkt, SESSIONS);
  }

  /** How the values of a rule divide between its two sub-buckets. */
  lemma RuleRegions(root: Children, bkt: Children, perm: bool, rule: string, matters: string -> bool)
    requires Open(root, RulePath(perm, rule)) == Some(bkt)
    ensures forall c :: Lookup(root, c).Some? && RulesOf(perm, {rule}, matters)(c) ==>
              if c.scope.Global? then SubBucket(bkt, GLOBAL).Some? && StoreOf(perm, rule, Global)(c)
              else SubBucket(bkt, SESSIONS).Some? && GroupsOf(perm, rule, SubBucket(bkt, SESSIONS).value.Keys, matters)(c)
    ensures SubBucket(bkt, GLOBAL).Some? ==>
              forall key :: ValueIn(SubBucket(bkt, GLOBAL).value, key) == Lookup(root, Cell(perm, rule, Global, key))
  {
    forall c | Lookup(root, c).Some? && RulesOf(perm, {rule}, matters)(c)
      ensures if c.scope.Global? then SubBucket(bkt, GLOBAL).Some? && StoreOf(perm, rule, Global)(c)
              else SubBucket(bkt, SESSIONS).Some? && GroupsOf(perm, rule, SubBucket(bkt, SESSIONS).value.Keys, matters)(c)
    {
      RuleLookup(root, bkt, perm, rule, c);
    }
    forall key ensures SubBucket(bkt, GLOBAL).Some? ==>
                         ValueIn(SubBucket(bkt, GLOBAL).value, key) == Lookup(root, Cell(perm, rule, Global, key)) {
      RuleLookup(root, bkt, perm, rule, Cell(perm, rule, Global, key));
    }
  }

  function NoCells(): Region {
    (c: Cell) => false
  }

  /** All values of one rule: the global store, then the groups. */
  method CollectRulePairs(bkt: Children, perm: bool, rule: string, matters: string -> bool, ghost root: Children)
    returns (r: Option<seq<Entry>>)
    requires Open(root, RulePath(perm, rule)) == Some(bkt)
    ensures r.Some? <==> Shaped(bkt, Rule, matters)
    ensures r.Some? ==> Lists(r.value, root, RulesOf(perm, {rule}, matters))
  {
    RuleShape(bkt, matters);
    RuleRegions(root, bkt, perm, rule, matters);
    var ok := VerifyBktKeys(bkt, true, {GLOBAL, SESSIONS});
    if !ok {
      return None;
    }
    var es, more: seq<Entry> := [], [];
    ghost var f, g := NoCells(), NoCells();
    if GLOBAL in bkt {
      var p := CollectKVPairs(bkt[GLOBAL].children, true, perm, rule, Global, root);
      if p.None? {
        return None;
      }
      es, f := p.value, StoreOf(perm, rule, Global);
    }
    if SESSIONS in bkt {
      SessionsOpen(root, bkt, perm, rule);
      var p := CollectGroups(bkt[SESSIONS].children, perm, rule, matters, root);
      if p.None? {
        return None;
      }
      more, g := p.value, GroupsOf(perm, rule, bkt[SESSIONS].children.Keys, matters);
    }
    ListsJoin(es, f, more, g, root, RulesOf(perm, {rule}, matters));
    return Some(es + more);
  }

  // ---- Everything ----

  lemma RuleOpens(root: Children, bkt: Children, perm: bool, rule: string)
    requires Open(root, [MainKey(perm)]) == Some(bkt) && rule in bkt && bkt[rule].Bucket?
    ensures Open(root, RulePath(perm, rule)) == Some(bkt[rule].children)
  {
    assert RulePath(perm, rule) == [MainKey(perm)] + [rule];
    OpenBelow(root, [MainKey(perm)], [rule]);
    OpenChild(bkt, rule);
  }

  /** All values of the permanent or the temporary part. */
  method CollectMain(bkt: Children, perm: bool, matters: string -> bool, ghost root: Children)
    returns (r: Option<seq<Entry>>)
    requires Open(root, [MainKey(perm)]) == Some(bkt)
    ensures r.Some? <==> Shaped(bkt, Main, matters)
    ensures r.Some? ==> Lists(r.value, root, RulesOf(perm, bkt.Keys, matters))
  {
    var es: seq<Entry> := [];
    var rest, done := bkt.Keys, {};
    while rest != {}
      invariant rest + done == bkt.Keys && rest !! done
      invariant forall n :: n in done ==> ChildShaped(bkt[n], n, Main, matters)
      invariant Lists(es, root, RulesOf(perm, done, matters))
      decreases rest
    {
      var rule :| rule in rest;
      ghost var before := RulesOf(perm, done, matters);
      rest, done := rest - {rule}, done + {rule};
      if bkt[rule].Leaf? {
        assert !ChildShaped(bkt[rule], rule, Main, matters);
        return None;
      }
      RuleOpens(root, bkt, perm, rule);
      var pairs := CollectRulePairs(bkt[rule].children, perm, rule, matters, root);
      if pairs.None? {
        assert !ChildShaped(bkt[rule], rule, Main, matters);
        return None;
      }
      ListsJoin(es, before, pairs.value, RulesOf(perm, {rule}, matters), root, RulesOf(perm, done, matters));
      es := es + pairs.value;
    }
    return Some(es);
  }

  ghost predicate MainShaped(root: Children, perm: bool, matters: string -> bool) {
    SubBucket(root, MainKey(perm)).Some? ==> Shaped(SubBucket(root, MainKey(perm)).value, Main, matters)
  }

  function PermOf(perm: bool, matters: string -> bool): Region {
    (c: Cell) => c.perm == perm && Kept(c, matters)
  }

  lemma MainLookup(root: Children, c: Cell)
    requires Lookup(root, c).Some?
    ensures SubBucket(root, MainKey(c.perm)).Some? && c.rule in SubBucket(root, MainKey(c.perm)).value
  {
    var p := PathOf(c);
    assert p == [MainKey(c.perm)] + p[1..] && p[1..][0] == c.rule;
    LookupFrom(root, [MainKey(c.perm)], p[1..], c);
    OpenChild(root, MainKey(c.perm));
  }

  method CollectPart(root: Children, perm: bool, matters: string -> bool) returns (r: Option<seq<Entry>>)
    ensures r.Some? <==> MainShaped(root, perm, matters)
    ensures r.Some? ==> Lists(r.value, root, PermOf(perm, matters))
  {
    var bkt := SubBucket(root, MainKey(perm));
    if bkt.None? {
      forall c | PermOf(perm, matters)(c) ensures Lookup(root, c).None? {
        if Lookup(root, c).Some? {
          MainLookup(root, c);
        }
      }
      ListsNothing(root, PermOf(perm, matters));
      return Some([]);
    }
    OpenChild(root, MainKey(perm));
    r := CollectMain(bkt.value, perm, matters, root);
    if r.Some? {
      forall c | Lookup(root, c).Some? ensures PermOf(perm, matters)(c) <==> RulesOf(perm, bkt.value.Keys, matters)(c) {
        MainLookup(root, c);
      }
      ListsSame(r.value, root, RulesOf(perm, bkt.value.Keys, matters), PermOf(perm, matters));
    }
  }

  /** Collecting succeeds exactly on trees of the expected layout, and then finds every
      value of every kept cell once and nothing else. */
  method CollectAllPairs(root: Children, matters: string -> bool) returns (r: Option<seq<Entry>>)
    ensures r.Some? <==> MainShaped(root, true, matters) && MainShaped(root, false, matters)
    ensures r.Some? ==> Lists(r.value, root, (c: Cell) => Kept(c, matters))
  {
    var kept := CollectPart(root, true, matters);
    if kept.None? {
      return None;
    }
    var temp := CollectPart(root, false, matters);
    if temp.None? {
      return None;
    }
    ListsJoin(kept.value, PermOf(true, matters), temp.value, PermOf(false, matters), root, (c: Cell) => Kept(c, matters));
    return Some(kept.value + temp.value);
  }
}
