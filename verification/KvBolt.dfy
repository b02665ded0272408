/** The bucket-tree backend of the key-value stores: a flat map from cells to values. */
module KvBolt {
  import opened AccountTypes
  import opened KvTree

  predicate Named(path: seq<string>) {
    forall i :: 0 <= i < |path| ==> path[i] != ""
  }

  /** No bucket on the way down a path may hold values. */
  predicate Firm(kind: Kind, path: seq<string>)
    decreases |path|
  {
    path == [] ||
    (!HoldsValues(kind) && ChildKind(kind, path[0]).Some? && Firm(ChildKind(kind, path[0]).value, path[1..]))
  }

  lemma {:induction false} CreateSucceeds(b: Children, kind: Kind, path: seq<string>)
    requires Shaped(b, kind, AllMatter) && Firm(kind, path)
    ensures Create(b, path).1 <==> Named(path)
    decreases |path|
  {
    if path != [] {
      assert Named(path) <==> path[0] != "" && Named(path[1..]);
      if path[0] in b {
        assert ChildShaped(b[path[0]], path[0], kind, AllMatter);
      }
      CreateSucceeds(if path[0] in b then b[path[0]].children else map[], ChildKind(kind, path[0]).value, path[1..]);
    }
  }

  lemma {:induction false} CreateBelow(b: Children, p: seq<string>, q: seq<string>)
    requires Open(b, p).Some? && Named(p)
    ensures Create(b, p + q).1 == Create(Open(b, p).value, q).1
    decreases |p|
  {
    if p == [] {
      assert p + q == q;
    } else {
      assert (p + q)[1..] == p[1..] + q;
      CreateBelow(b[p[0]].children, p[1..], q);
    }
  }

  /** Creating a path opens the buckets on it and no other. */
  lemma {:induction false} CreateOpens(b: Children, path: seq<string>, q: seq<string>)
    requires !(q <= path)
    ensures Open(Create(b, path).0, q).Some? <==> Open(b, q).Some?
    decreases |path|
  {
    if path != [] && path[0] != "" && ValueIn(b, path[0]).None? && q[0] == path[0] {
      CreateOpens(if path[0] in b then b[path[0]].children else map[], path[1..], q[1..]);
      assert path[0] !in b ==> Open(map[], q[1..]).None?;
    }
  }

  lemma {:induction false} OpenBelow(b: Children, p: seq<string>, q: seq<string>)
    requires Open(b, p).Some?
    ensures Open(b, p + q) == Open(Open(b, p).value, q)
    decreases |p|
  {
    if p == [] {
      assert p + q == q;
    } else {
      assert (p + q)[1..] == p[1..] + q;
      OpenBelow(b[p[0]].children, p[1..], q);
    }
  }

  lemma {:induction false} OpenAbove(b: Children, p: seq<string>, q: seq<string>)
    requires Open(b, p + q).Some?
    ensures Open(b, p).Some?
    decreases |p|
  {
    if p != [] {
      assert (p + q)[1..] == p[1..] + q;
      OpenAbove(b[p[0]].children, p[1..], q);
    }
  }

  lemma CreateKeepsLookups(b: Children, path: seq<string>)
    ensures forall x :: Lookup(Create(b, path).0, x) == Lookup(b, x)
    ensures Create(b, path).1 ==> Open(Create(b, path).0, path).Some?
  {
    forall x ensures Lookup(Create(b, path).0, x) == Lookup(b, x) {
      CreateKeepsValues(b, path, PathOf(x), x.key);
    }
    CreateKeepsValues(b, path, [], "");
  }

  predicate BucketUnder(b: Children, c: Cell)
    requires Open(b, PathOf(c)).Some?
  {
    var at := Open(b, PathOf(c)).value;
    c.key in at && at[c.key].Bucket?
  }

  lemma WriteSetsCell(b: Children, c: Cell, v: Option<Value>)
    requires Open(b, PathOf(c)).Some? && !BucketUnder(b, c)
    ensures forall x :: Lookup(Write(b, PathOf(c), c.key, v), x) == if x == c then v else Lookup(b, x)
  {
    forall x ensures Lookup(Write(b, PathOf(c), c.key, v), x) == if x == c then v else Lookup(b, x) {
      WriteIsLocal(b, PathOf(c), c.key, v, PathOf(x), x.key);
      if PathOf(x) == PathOf(c) && x.key == c.key {
        PathsDistinct(x, c);
      }
    }
  }

  // ---- When a write is accepted ----

  predicate KnownGroup(s: Scope, known: set<string>) {
    match s
    case Global => true
    case Group(id) => id in known
    case Feature(group, _) => group in known
  }

  /** The bucket of a group's features and a value of the same name exclude each other. */
  predicate Clash(rules: Children, c: Cell) {
    match c.scope
    case Global => false
    case Group(_) => c.key == FEATURES && Open(rules, PathOf(c) + [FEATURES]).Some?
    case Feature(group, _) => Lookup(rules, Cell(c.perm, c.rule, Group(group), FEATURES)).Some?
  }

  predicate Settable(rules: Children, c: Cell, known: set<string>) {
    Named(PathOf(c)) && c.key != "" && KnownGroup(c.scope, known) && !Clash(rules, c)
  }

  lemma PathKinds(c: Cell)
    ensures var k := KindAt(Root, PathOf(c)); k.Some? && HoldsValues(k.value)
    ensures c.scope.Group? <==> KindAt(Root, PathOf(c)) == Some(OneGroup)
    ensures !c.scope.Feature? ==> Firm(Root, PathOf(c))
  {
    var p := PathOf(c);
    var p1, p2, p3 := p[1..], p[2..], p[3..];
    assert p1 == p[1..] && p2 == p1[1..] && p3 == p2[1..];
    assert GLOBAL != SESSIONS by {
      assert |GLOBAL| != |SESSIONS|;
    }
    OneStep(Root, p);
    OneStep(Main, p1);
    OneStep(Rule, p2);
    match c.scope {
      case Global =>
        assert p3 == [] && KindAt(Plain, p3) == Some(Plain);
      case Group(_) =>
        OneStep(Groups, p3);
        assert p3[1..] == [] && KindAt(OneGroup, p3[1..]) == Some(OneGroup);
      case Feature(_, _) =>
        var p4, p5 := p[4..], p[5..];
        assert p4 == p3[1..] && p5 == p4[1..] && p5[1..] == [] && KindAt(Plain, p5[1..]) == Some(Plain);
        OneStep(Groups, p3);
        OneStep(OneGroup, p4);
        OneStep(Features, p5);
    }
  }

  lemma OneStep(kind: Kind, path: seq<string>)
    requires path != [] && ChildKind(kind, path[0]).Some?
    ensures KindAt(kind, path) == KindAt(ChildKind(kind, path[0]).value, path[1..])
    ensures Firm(kind, path) <==> !HoldsValues(kind) && Firm(ChildKind(kind, path[0]).value, path[1..])
  {
  }

  lemma PathCreated(b: Children, c: Cell)
    requires Shaped(b, Root, AllMatter) && !c.scope.Feature?
    ensures Create(b, PathOf(c)).1 <==> Named(PathOf(c))
    ensures Shaped(Create(b, PathOf(c)).0, Root, AllMatter)
  {
    PathKinds(c);
    CreateSucceeds(b, Root, PathOf(c));
    CreateKeepsShape(b, Root, PathOf(c));
  }

  /** The bucket of a rule can be made under any name but the empty one. */
  lemma RuleCreated(b: Children, c: Cell)
    requires Shaped(b, Root, AllMatter)
    ensures var r := Create(b, [MainKey(c.perm), c.rule]); (r.1 <==> c.rule != "") && Shaped(r.0, Root, AllMatter)
  {
    var p := [MainKey(c.perm), c.rule];
    assert p[1..] == [c.rule] && p[1..][1..] == [];
    assert Firm(Rule, p[1..][1..]) && KindAt(Rule, p[1..][1..]).Some?;
    OneStep(Root, p);
    OneStep(Main, p[1..]);
    CreateSucceeds(b, Root, p);
    CreateKeepsShape(b, Root, p);
    assert Named(p) <==> p[0] != "" && p[1] != "";
  }

  /** A feature bucket can be made unless a value has taken the name of its parent. */
  lemma FeatureCreated(b: Children, c: Cell)
    requires Shaped(b, Root, AllMatter) && c.scope.Feature?
    requires var g := c.(scope := Group(c.scope.group)); Open(b, PathOf(g)).Some? && Named(PathOf(g))
    ensures Create(b, PathOf(c)).1 <==> c.scope.name != "" && !Clash(b, c)
    ensures Shaped(Create(b, PathOf(c)).0, Root, AllMatter)
  {
    var g := c.(scope := Group(c.scope.group));
    var q := [FEATURES, c.scope.name];
    assert PathOf(c) == PathOf(g) + q;
    CreateBelow(b, PathOf(g), q);
    PathKinds(c);
    PathKinds(g);
    CreateKeepsShape(b, Root, PathOf(c));
    OpenShaped(b, Root, PathOf(g), AllMatter);
    var at := Open(b, PathOf(g)).value;
    assert q[1..] == [c.scope.name];
    if ValueIn(at, FEATURES).None? {
      assert FEATURES in at ==> ChildShaped(at[FEATURES], FEATURES, OneGroup, AllMatter);
      CreateSucceeds(if FEATURES in at then at[FEATURES].children else map[], Features, q[1..]);
    }
  }

  lemma NamedFeature(c: Cell)
    requires c.scope.Feature?
    ensures Named(PathOf(c)) <==> Named(PathOf(c.(scope := Group(c.scope.group)))) && c.scope.name != ""
  {
    var p, g := PathOf(c), PathOf(c.(scope := Group(c.scope.group)));
    assert p == g + [FEATURES, c.scope.name] && p[5] == c.scope.name && FEATURES != "";
    assert forall i :: 0 <= i < 4 ==> p[i] == g[i];
  }

  /** The only bucket among values is the one for a group's features. */
  lemma BucketMeansClash(b: Children, c: Cell)
    requires Shaped(b, Root, AllMatter) && Open(b, PathOf(c)).Some?
    ensures BucketUnder(b, c) <==> c.scope.Group? && c.key == FEATURES && Open(b, PathOf(c) + [FEATURES]).Some?
  {
    PathKinds(c);
    OpenShaped(b, Root, PathOf(c), AllMatter);
    var at := Open(b, PathOf(c)).value;
    OpenBelow(b, PathOf(c), [FEATURES]);
    if c.key in at {
      assert ChildShaped(at[c.key], c.key, KindAt(Root, PathOf(c)).value, AllMatter);
    }
  }

  // ---- The store ----

  class BoltKvStore {
    var rules: Children

    ghost predicate Valid()
      reads this
    {
      Shaped(rules, Root, AllMatter)
    }

    constructor ()
      ensures Valid() && forall x :: Lookup(rules, x) == None
    {
      rules := map[];
    }

    method Get(c: Cell) returns (r: Option<Value>)
      ensures r == Lookup(rules, c)
    {
      var bucket := Open(rules, PathOf(c));
      if bucket.None? {
        return None;
      }
      return ValueIn(bucket.value, c.key);
    }

    method MakeBucket(path: seq<string>) returns (ok: bool)
      modifies this
      ensures rules == Create(old(rules), path).0 && ok == Create(old(rules), path).1
      ensures forall x :: Lookup(rules, x) == old(Lookup(rules, x))
      ensures ok ==> Open(rules, path).Some?
      ensures forall q :: !(q <= path) ==> (Open(rules, q).Some? <==> old(Open(rules, q)).Some?)
    {
      CreateKeepsLookups(rules, path);
      forall q | !(q <= path) ensures Open(Create(rules, path).0, q).Some? <==> Open(rules, q).Some? {
        CreateOpens(rules, path, q);
      }
      var r := Create(rules, path);
      rules := r.0;
      return r.1;
    }

    /** The bucket of a cell, made together with everything above it. A group must be
        known, which is checked once the bucket of the rule exists. */
    method BucketFor(c: Cell, known: set<string>) returns (ok: bool)
      modifies this
      ensures forall x :: Lookup(rules, x) == old(Lookup(rules, x))
      ensures ok ==> Open(rules, PathOf(c)).Some?
      ensures Open(rules, PathOf(c) + [FEATURES]).Some? <==> old(Open(rules, PathOf(c) + [FEATURES])).Some?
      ensures old(Valid()) ==> Valid()
      ensures old(Valid()) ==>
                (ok <==> Named(PathOf(c)) && KnownGroup(c.scope, known) && (c.scope.Feature? ==> !Clash(old(rules), c)))
    {
      ghost var was := rules;
      ok := MakeBucket([MainKey(c.perm), c.rule]);
      if Shaped(was, Root, AllMatter) {
        RuleCreated(was, c);
        assert PathOf(c)[1] == c.rule;
      }
      if !ok {
        return;
      }
      if !KnownGroup(c.scope, known) {
        return false;
      }
      if c.scope.Feature? {
        ghost var now := rules;
        var g := c.(scope := Group(c.scope.group));
        ok := MakeBucket(PathOf(g));
        if Shaped(was, Root, AllMatter) {
          PathCreated(now, g);
          NamedFeature(c);
        }
        if !ok {
          return;
        }
      }
      ghost var now := rules;
      ok := MakeBucket(PathOf(c));
      if Shaped(was, Root, AllMatter) {
        if c.scope.Feature? {
          FeatureCreated(now, c);
          NamedFeature(c);
        } else {
          PathCreated(now, c);
        }
      }
    }

    lemma KeepShape(c: Cell, v: Option<Value>)
      requires Open(rules, PathOf(c)).Some?
      ensures Valid() ==> Shaped(Write(rules, PathOf(c), c.key, v), Root, AllMatter)
    {
      PathKinds(c);
      if Valid() {
        WriteKeepsShape(rules, Root, PathOf(c), c.key, v);
      }
    }

    /** Setting a value changes its own cell and no other. */
    method Set(c: Cell, v: Value, known: set<string>) returns (ok: bool)
      modifies this
      ensures forall x :: Lookup(rules, x) == if ok && x == c then Some(v) else old(Lookup(rules, x))
      ensures old(Valid()) ==> Valid() && (ok <==> Settable(old(rules), c, known))
    {
      ok := BucketFor(c, known);
      if !ok {
        return;
      }
      if old(Valid()) {
        BucketMeansClash(rules, c);
      }
      if c.key == "" || BucketUnder(rules, c) {
        return false;
      }
      KeepShape(c, Some(v));
      WriteSetsCell(rules, c, Some(v));
      rules := Write(rules, PathOf(c), c.key, Some(v));
    }

    /** Deleting clears its own cell and no other; only the name of the bucket of a
        group's features is refused. */
    method Del(c: Cell) returns (ok: bool)
      modifies this
      ensures forall x :: Lookup(rules, x) == if x == c then None else old(Lookup(rules, x))
      ensures old(Valid()) ==> Valid() && (ok <==> !(c.scope.Group? && Clash(old(rules), c)))
    {
      if Open(rules, PathOf(c)).None? {
        if Open(rules, PathOf(c) + [FEATURES]).Some? {
          OpenAbove(rules, PathOf(c), [FEATURES]);
        }
        return true;
      }
      if Valid() {
        BucketMeansClash(rules, c);
      }
      if BucketUnder(rules, c) {
        return false;
      }
      KeepShape(c, None);
      WriteSetsCell(rules, c, None);
      rules := Write(rules, PathOf(c), c.key, None);
      return true;
    }

    /** Clears exactly the cells that are not permanent. */
    method DeleteTempKVStores() returns (ok: bool)
      modifies this
      ensures forall x :: Lookup(rules, x) == if x.perm then old(Lookup(rules, x)) else None
      ensures old(Valid()) ==> Valid() && ok
    {
      if TEMP in rules && rules[TEMP].Leaf? {
        return false;
      }
      rules := rules - {TEMP};
      return true;
    }
  }
}
