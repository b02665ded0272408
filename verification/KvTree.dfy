/** The key-value stores of the firewall rules in a nested bucket tree. */
module KvTree {
  import opened AccountTypes

  type Value = seq<Byte>

  /** A store belongs to a rule alone, to a session group, or to a feature in a group. */
  datatype Scope = Global | Group(id: string) | Feature(group: string, name: string)

  datatype Cell = Cell(perm: bool, rule: string, scope: Scope, key: string)

  const PERM := "perm"
  const TEMP := "temp"
  const GLOBAL := "global"
  const SESSIONS := "session-kv-store"
  const FEATURES := "feature-kv-store"

  datatype Node = Leaf(value: Value) | Bucket(children: Children)
  type Children = map<string, Node>

  function Open(b: Children, path: seq<string>): Option<Children>
    decreases |path|
  {
    if path == [] then Some(b)
    else if path[0] in b && b[path[0]].Bucket? then Open(b[path[0]].children, path[1..])
    else None
  }

  function ValueIn(b: Children, key: string): Option<Value> {
    if key in b && b[key].Leaf? then Some(b[key].value) else None
  }

  function ValueAt(b: Children, path: seq<string>, key: string): Option<Value> {
    var at := Open(b, path);
    if at.None? then None else ValueIn(at.value, key)
  }

  /** Creates the buckets of a path that are missing; a nameless bucket or a value in
      the way stops it, after the buckets above were made. */
  function Create(b: Children, path: seq<string>): (Children, bool)
    decreases |path|
  {
    if path == [] then (b, true)
    else if path[0] == "" || ValueIn(b, path[0]).Some? then (b, false)
    else
      var r := Create(if path[0] in b then b[path[0]].children else map[], path[1..]);
      (b[path[0] := Bucket(r.0)], r.1)
  }

  /** Puts a value under a key of an open bucket, or takes the key out of it. */
  function Write(b: Children, path: seq<string>, key: string, v: Option<Value>): Children
    requires Open(b, path).Some?
    decreases |path|
  {
    if path == [] then (if v.Some? then b[key := Leaf(v.value)] else b - {key})
    else b[path[0] := Bucket(Write(b[path[0]].children, path[1..], key, v))]
  }

  /** Creating buckets changes no value, and opens the path when it succeeds. */
  lemma {:induction false} CreateKeepsValues(b: Children, path: seq<string>, p: seq<string>, k: string)
    ensures ValueAt(Create(b, path).0, p, k) == ValueAt(b, p, k)
    ensures Create(b, path).1 ==> Open(Create(b, path).0, path).Some?
    decreases |path|
  {
    if path != [] && path[0] != "" && ValueIn(b, path[0]).None? {
      var c := if path[0] in b then b[path[0]].children else map[];
      if p != [] && p[0] == path[0] {
        CreateKeepsValues(c, path[1..], p[1..], k);
        assert path[0] !in b ==> ValueAt(map[], p[1..], k) == None;
      } else {
        CreateKeepsValues(c, path[1..], [], k);
      }
    }
  }

  /** Writing a value affects that one entry of the whole tree. */
  lemma {:induction false} WriteIsLocal(b: Children, path: seq<string>, key: string, v: Option<Value>, p: seq<string>, k: string)
    requires Open(b, path).Some? && !(key in Open(b, path).value && Open(b, path).value[key].Bucket?)
    ensures ValueAt(Write(b, path, key, v), p, k) == if p == path && k == key then v else ValueAt(b, p, k)
    ensures Open(Write(b, path, key, v), path).Some?
    decreases |path|
  {
    if path == [] {
      if p != [] {
        assert p[0] in b && b[p[0]].Bucket? ==> p[0] != key;
      }
    } else if p != [] && p[0] == path[0] {
      WriteIsLocal(b[path[0]].children, path[1..], key, v, p[1..], k);
      assert p == path <==> p[1..] == path[1..];
    } else {
      WriteIsLocal(b[path[0]].children, path[1..], key, v, [], k);
    }
  }

  // ---- The layout ----

  datatype Kind = Root | Main | Rule | Groups | OneGroup | Features | Plain

  function Rank(k: Kind): nat {
    match k
    case Root => 6
    case Main => 5
    case Rule => 4
    case Groups => 3
    case OneGroup => 2
    case Features => 1
    case Plain => 0
  }

  function ChildKind(k: Kind, name: string): (r: Option<Kind>)
    ensures r.Some? ==> Rank(r.value) < Rank(k)
  {
    match k
    case Root => if name == PERM || name == TEMP then Some(Main) else None
    case Main => Some(Rule)
    case Rule => if name == GLOBAL then Some(Plain) else if name == SESSIONS then Some(Groups) else None
    case Groups => Some(OneGroup)
    case OneGroup => if name == FEATURES then Some(Features) else None
    case Features => Some(Plain)
    case Plain => None
  }

  predicate HoldsValues(k: Kind) {
    k.Plain? || k.OneGroup?
  }

  /** Values and buckets are where they belong, in every group that matters. */
  ghost predicate Shaped(b: Children, kind: Kind, matters: string -> bool)
    decreases Rank(kind)
  {
    forall name :: name in b ==> ChildShaped(b[name], name, kind, matters)
  }

  ghost predicate ChildShaped(n: Node, name: string, kind: Kind, matters: string -> bool)
    decreases Rank(kind), 0
  {
    if n.Leaf? then HoldsValues(kind)
    else
      && ChildKind(kind, name).Some?
      && ((kind.Groups? && !matters(name)) || Shaped(n.children, ChildKind(kind, name).value, matters))
  }

  predicate AllMatter(name: string) {
    true
  }

  /** Where a path leads, if it keeps to the layout. */
  function KindAt(kind: Kind, path: seq<string>): Option<Kind>
    decreases |path|
  {
    if path == [] then Some(kind)
    else
      var c := ChildKind(kind, path[0]);
      if c.None? then None else KindAt(c.value, path[1..])
  }

  lemma {:induction false} CreateKeepsShape(b: Children, kind: Kind, path: seq<string>)
    requires Shaped(b, kind, AllMatter) && KindAt(kind, path).Some?
    ensures Shaped(Create(b, path).0, kind, AllMatter)
    decreases |path|
  {
    if path != [] && path[0] != "" && ValueIn(b, path[0]).None? {
      var c := if path[0] in b then b[path[0]].children else map[];
      assert path[0] in b ==> ChildShaped(b[path[0]], path[0], kind, AllMatter);
      CreateKeepsShape(c, ChildKind(kind, path[0]).value, path[1..]);
    }
  }

  lemma {:induction false} WriteKeepsShape(b: Children, kind: Kind, path: seq<string>, key: string, v: Option<Value>)
    requires Shaped(b, kind, AllMatter) && Open(b, path).Some?
    requires KindAt(kind, path).Some? && HoldsValues(KindAt(kind, path).value)
    ensures Shaped(Write(b, path, key, v), kind, AllMatter)
    decreases |path|
  {
    if path != [] {
      assert ChildShaped(b[path[0]], path[0], kind, AllMatter);
      WriteKeepsShape(b[path[0]].children, ChildKind(kind, path[0]).value, path[1..], key, v);
    }
  }

  lemma {:induction false} OpenShaped(b: Children, kind: Kind, path: seq<string>, matters: string -> bool)
    requires Shaped(b, kind, matters) && Open(b, path).Some?
    requires forall name :: matters(name)
    ensures KindAt(kind, path).Some? && Shaped(Open(b, path).value, KindAt(kind, path).value, matters)
    decreases |path|
  {
    if path != [] {
      assert ChildShaped(b[path[0]], path[0], kind, matters);
      OpenShaped(b[path[0]].children, ChildKind(kind, path[0]).value, path[1..], matters);
    }
  }

  // ---- Cells in the tree ----

  function MainKey(perm: bool): string {
    if perm then PERM else TEMP
  }

  function PathOf(c: Cell): seq<string> {
    match c.scope
    case Global => [MainKey(c.perm), c.rule, GLOBAL]
    case Group(id) => [MainKey(c.perm), c.rule, SESSIONS, id]
    case Feature(group, name) => [MainKey(c.perm), c.rule, SESSIONS, group, FEATURES, name]
  }

  /** Looking a cell up in the tree. */
  function Lookup(rules: Children, c: Cell): Option<Value> {
    ValueAt(rules, PathOf(c), c.key)
  }

  /** Different cells are different entries of the tree. */
  lemma PathsDistinct(a: Cell, b: Cell)
    requires PathOf(a) == PathOf(b) && a.key == b.key
    ensures a == b
  {
    assert PathOf(a)[0] == PathOf(b)[0] && PathOf(a)[1] == PathOf(b)[1];
    if !a.scope.Global? {
      assert PathOf(a)[3] == PathOf(b)[3];
    }
    if a.scope.Feature? {
      assert PathOf(a)[5] == PathOf(b)[5];
    }
  }
}
