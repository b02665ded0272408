/** The stores behind the privacy map: the two buckets of a group, the pairs held in
    memory, and the check that the migration makes before it moves a group. */
module PrivacyStore {
  import opened AccountTypes
  import opened PrivacyMap

  class PrivacyMapTx {
    var realToPseudo: map<string, string>
    var pseudoToReal: map<string, string>

    ghost function View(): Maps
      reads this
    {
      Maps(realToPseudo, pseudoToReal)
    }

    ghost predicate Valid()
      reads this
    {
      Bijective(View())
    }

    constructor ()
      ensures View() == EMPTY_MAPS && Valid()
    {
      realToPseudo, pseudoToReal := map[], map[];
    }

    /** Adds a pair to both buckets. An error undoes the transaction. */
    method NewPair(actual: string, pseudo: string, groupExists: bool) returns (ok: bool)
      modifies this
      ensures ok <==> groupExists && PrivacyMap.NewPair(old(View()), actual, pseudo).Some?
      ensures View() == if ok then PrivacyMap.NewPair(old(View()), actual, pseudo).value else old(View())
      ensures old(Valid()) ==> Valid() && Extends(old(View()), View())
    {
      if !groupExists {
        return false;
      }
      if Fetch(realToPseudo, actual).Some? || Fetch(pseudoToReal, pseudo).Some? {
        return false;
      }
      if actual == "" || pseudo == "" {
        return false;
      }
      if Valid() {
        NewPairKeeps(View(), actual, pseudo);
      }
      realToPseudo := realToPseudo[actual := pseudo];
      pseudoToReal := pseudoToReal[pseudo := actual];
      return true;
    }

    /** What one lookup finds, the other one undoes. */
    method RealToPseudo(actual: string, groupExists: bool) returns (r: Option<string>)
      ensures r == if groupExists then Fetch(realToPseudo, actual) else None
      ensures Valid() && r.Some? ==> Fetch(pseudoToReal, r.value) == Some(actual)
    {
      if !groupExists {
        return None;
      }
      if Valid() {
        NonEmptyValues(View());
      }
      return Fetch(realToPseudo, actual);
    }

    method PseudoToReal(pseudo: string, groupExists: bool) returns (r: Option<string>)
      ensures r == if groupExists then Fetch(pseudoToReal, pseudo) else None
      ensures Valid() && r.Some? ==> Fetch(realToPseudo, r.value) == Some(pseudo)
    {
      if !groupExists {
        return None;
      }
      if Valid() {
        NonEmptyValues(View());
      }
      return Fetch(pseudoToReal, pseudo);
    }

    method FetchAllPairs() returns (pairs: map<string, string>)
      ensures pairs == realToPseudo
    {
      pairs := map[];
      var rest := realToPseudo.Keys;
      while rest != {}
        invariant rest <= realToPseudo.Keys && pairs.Keys == realToPseudo.Keys - rest
        invariant forall k :: k in pairs ==> pairs[k] == realToPseudo[k]
        decreases rest
      {
        var r :| r in rest;
        rest := rest - {r};
        pairs := pairs[r := realToPseudo[r]];
      }
    }
  }

  // ---- Pairs in memory ----

  /** No value has two different pseudonyms. */
  predicate Compatible(a: map<string, string>, b: map<string, string>) {
    forall k :: k in a && k in b ==> a[k] == b[k]
  }

  class PrivacyMapPairs {
    var pairs: map<string, string>

    constructor (m: map<string, string>)
      ensures pairs == m
    {
      pairs := m;
    }

    /** Adds all pairs or, if one of them conflicts with a known pair, none. */
    method Add(more: map<string, string>) returns (ok: bool)
      modifies this
      ensures ok <==> Compatible(old(pairs), more)
      ensures pairs == if ok then old(pairs) + more else old(pairs)
    {
      var rest := more.Keys;
      while rest != {}
        invariant rest <= more.Keys && pairs == old(pairs)
        invariant forall k :: k in more && k !in rest && k in pairs ==> pairs[k] == more[k]
        decreases rest
      {
        var k :| k in rest;
        rest := rest - {k};
        if k in pairs && pairs[k] != more[k] {
          return false;
        }
      }
      rest := more.Keys;
      while rest != {}
        invariant rest <= more.Keys && pairs.Keys == old(pairs).Keys + (more.Keys - rest)
        invariant forall k :: k in pairs ==> pairs[k] == if k in more && k !in rest then more[k] else old(pairs)[k]
        decreases rest
      {
        var k :| k in rest;
        rest := rest - {k};
        pairs := pairs[k := more[k]];
      }
      return true;
    }
  }

  // ---- The check of the migration ----

  /** What a bucket holds under a key. */
  datatype Item = Text(value: string) | SubBucket

  type Bucket = map<string, Item>

  predicate OnlyPairs(b: Bucket) {
    forall k :: k in b ==> b[k].Text? && b[k].value != ""
  }

  function PairsOf(b: Bucket): map<string, string>
    requires OnlyPairs(b)
  {
    map k | k in b :: b[k].value
  }

  /** The pairs of a bucket; sub-buckets and empty values are refused. */
  method CollectPairs(b: Bucket) returns (r: Option<map<string, string>>)
    ensures r.Some? <==> OnlyPairs(b)
    ensures r.Some? ==> r.value == PairsOf(b)
  {
    var pairs: map<string, string> := map[];
    var rest := b.Keys;
    while rest != {}
      invariant rest <= b.Keys && pairs.Keys == b.Keys - rest
      invariant forall k :: k in pairs ==> b[k].Text? && b[k].value == pairs[k] && pairs[k] != ""
      decreases rest
    {
      var k :| k in rest;
      rest := rest - {k};
      if b[k].SubBucket? || b[k].value == "" {
        return None;
      }
      pairs := pairs[k := b[k].value];
    }
    return Some(pairs);
  }

  /** Every real value is found again through its pseudonym. */
  predicate FoundAgain(f: map<string, string>, g: map<string, string>) {
    forall r :: r in f ==> f[r] in g && g[f[r]] == r
  }

  lemma {:induction false} SubsetSize(a: set<string>, b: set<string>)
    requires a <= b
    ensures |a| <= |b| && (|a| == |b| ==> a == b)
  {
    if a != {} {
      var x :| x in a;
      SubsetSize(a - {x}, b - {x});
      assert a == (a - {x}) + {x} && b == (b - {x}) + {x};
    } else if b != {} {
      assert |b| > 0;
    }
  }

  /** A map that can be undone has as many values as keys. */
  lemma {:induction false} InjectiveSize(f: map<string, string>, g: map<string, string>)
    requires FoundAgain(f, g)
    ensures |f.Values| == |f|
    decreases f.Keys
  {
    if f.Keys != {} {
      var r :| r in f.Keys;
      var f' := f - {r};
      InjectiveSize(f', g);
      assert f[r] !in f'.Values;
      assert f.Values == f'.Values + {f[r]} by {
        assert forall k :: k in f && k != r ==> k in f' && f'[k] == f[k];
      }
      assert f.Keys == f'.Keys + {r};
      assert |f| == |f.Keys| && |f'| == |f'.Keys|;
    } else {
      assert f == map[];
    }
  }

  /** The check is sufficient: equal sizes and every real value found again through its
      pseudonym make the two maps inverse to each other. */
  lemma PairCheckMeansInverse(f: map<string, string>, g: map<string, string>)
    ensures |f| == |g| && FoundAgain(f, g) <==> Inverse(f, g)
  {
    if |f| == |g| && FoundAgain(f, g) {
      InjectiveSize(f, g);
      assert |g| == |g.Keys|;
      SubsetSize(f.Values, g.Keys);
      forall p | p in g ensures g[p] in f && f[g[p]] == p {
        assert p in f.Values;
      }
    }
    if Inverse(f, g) {
      InjectiveSize(f, g);
      assert f.Values == g.Keys by {
        forall p | p in g ensures p in f.Values {
          assert f[g[p]] == p;
        }
      }
      assert |g| == |g.Keys|;
    }
  }

  /** A group is migrated if and only if its buckets are there, hold nothing but
      non-empty values and are inverse to each other. */
  method CollectGroupPairs(realBkt: Option<Bucket>, pseudoBkt: Option<Bucket>) returns (r: Option<map<string, string>>)
    ensures r.Some? <==>
              && realBkt.Some? && OnlyPairs(realBkt.value) && pseudoBkt.Some? && OnlyPairs(pseudoBkt.value)
              && Inverse(PairsOf(realBkt.value), PairsOf(pseudoBkt.value))
    ensures r.Some? ==> r.value == PairsOf(realBkt.value)
  {
    if realBkt.None? {
      return None;
    }
    var there := CollectPairs(realBkt.value);
    if there.None? || pseudoBkt.None? {
      return None;
    }
    var back := CollectPairs(pseudoBkt.value);
    if back.None? {
      return None;
    }
    PairCheckMeansInverse(there.value, back.value);
    if |there.value| != |back.value| {
      return None;
    }
    var rest := there.value.Keys;
    while rest != {}
      invariant rest <= there.value.Keys
      invariant forall k :: k in there.value && k !in rest ==>
                  there.value[k] in back.value && back.value[there.value[k]] == k
      decreases rest
    {
      var k :| k in rest;
      rest := rest - {k};
      if there.value[k] !in back.value || back.value[there.value[k]] != k {
        return None;
      }
    }
    return there;
  }
}
