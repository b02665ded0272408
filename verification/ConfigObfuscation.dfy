/** Replacing sensitive strings in feature configurations by pseudonyms. */
module ConfigObfuscation {
  import opened AccountTypes
  import opened Wire
  import opened Text
  import opened PrivacyStore

  datatype Json = Str(text: string) | List(items: seq<Json>) | Other(id: nat)

  type Config = map<string, Json>

  type Pairs = map<string, string>

  /** What the session leaves in the clear. */
  datatype Flags = Flags(clearChanIDs: bool, clearPubkeys: bool)

  const PUBKEY_LEN: nat := 66
  const MIN_CHAN_ID_LEN: nat := 13
  const MAX_CHAN_ID_LEN: nat := 20

  /** Channel points, public keys and channel ids are hidden, in that order of tests. */
  predicate Hides(value: string, flags: Flags) {
    if DecodeChannelPoint(value).Some? then !flags.clearChanIDs
    else if HexDecode(value).Some? && |value| == PUBKEY_LEN then !flags.clearPubkeys
    else ParseInt(value).Some? && MIN_CHAN_ID_LEN <= |value| <= MAX_CHAN_ID_LEN && !flags.clearChanIDs
  }

  // ---- Which texts are hidden ----

  /** Sixty-six hexadecimal digits, as a node key is written. */
  predicate KeyText(s: string) {
    |s| == 66 && AnyHex(s)
  }

  /** A signed number of thirteen to twenty characters, as a channel id is written. */
  predicate ChanIdText(s: string) {
    13 <= |s| <= 20 && ParseInt(s).Some?
  }

  /** The three kinds of text exclude each other, and a text is hidden exactly if it is of
      one of them and the flag for that kind is not set. */
  lemma HiddenIff(s: string, flags: Flags)
    ensures Hides(s, flags) <==>
            (PointText(s) && !flags.clearChanIDs) || (KeyText(s) && !flags.clearPubkeys) || (ChanIdText(s) && !flags.clearChanIDs)
    ensures !(PointText(s) && KeyText(s)) && !(PointText(s) && ChanIdText(s)) && !(KeyText(s) && ChanIdText(s))
  {
    PointTextIff(s);
    HexDecodesIff(s);
    if PointText(s) {
      assert !IsHexDigit(s[64]);
    }
  }

  /** A node key of thirty-three bytes is hidden exactly if keys are not left clear. */
  lemma NodeKeyHiddenIff(key: Bytes, flags: Flags)
    requires |key| == 33
    ensures KeyText(HexEncode(key)) && (Hides(HexEncode(key), flags) <==> !flags.clearPubkeys)
  {
    HexRoundTrip(key);
    HexIsLower(key);
    HiddenIff(HexEncode(key), flags);
  }

  /** A channel point is hidden exactly if channels are not left clear. */
  lemma ChanPointHiddenIff(p: ChanPoint, flags: Flags)
    requires GoodTxid(p.txid)
    ensures PointText(FormatPoint(p)) && (Hides(FormatPoint(p), flags) <==> !flags.clearChanIDs)
  {
    ChanPointRoundTrip(p);
    PointTextIff(FormatPoint(p));
  }

  /** Of the numbers, those of thirteen digits and more that fit a signed word are hidden
      as channel ids, and those of sixty-six digits as node keys. */
  lemma NumberHiddenIff(n: nat, flags: Flags)
    ensures Hides(Decimal(n), flags) <==>
            (1_000_000_000_000 <= n < 0x8000_0000_0000_0000 && !flags.clearChanIDs) ||
            (Pow10(65) <= n < Pow10(66) && !flags.clearPubkeys)
  {
    DecimalParsesIff(n);
    DecimalRoundTrip(n);
    HiddenIff(Decimal(n), flags);
    DecimalLength(n, 12);
    DecimalLength(n, 20);
    DecimalLength(n, 65);
    DecimalLength(n, 66);
    PowersOfTen();
    NoPointAmongDigits(Decimal(n));
    assert AnyHex(Decimal(n));
  }

  lemma PowersOfTen()
    ensures Pow10(12) == 1_000_000_000_000 && Pow10(20) > 0x8000_0000_0000_0000
  {
    assert Pow10(4) == 10_000;
    assert Pow10(8) == 100_000_000;
    assert Pow10(12) == 1_000_000_000_000;
    assert Pow10(16) == 10_000_000_000_000_000;
  }

  lemma NoPointAmongDigits(s: string)
    requires Digits(s)
    ensures !PointText(s)
  {
    if |s| > 65 {
      assert IsDigit(s[64]);
    }
  }

  predicate AllStrings(items: seq<Json>) {
    forall i :: 0 <= i < |items| ==> items[i].Str?
  }

  predicate AnyString(items: seq<Json>) {
    exists i :: 0 <= i < |items| && items[i].Str?
  }

  predicate Mixed(v: Json) {
    v.List? && AnyString(v.items) && !AllStrings(v.items)
  }

  /** A value that is rewritten: a list of strings, and not an empty one. */
  predicate Rewritten(v: Json) {
    v.List? && AnyString(v.items) && AllStrings(v.items)
  }

  /** How the strings are trimmed is left open. */
  type Trim = string -> string

  // ---- What the result must be ----

  function Replacement(value: string, all: Pairs, flags: Flags): string {
    if Hides(value, flags) && value in all then all[value] else value
  }

  function RenderItem(item: Json, all: Pairs, flags: Flags, trim: Trim): Json
    requires item.Str?
  {
    Str(Replacement(trim(item.text), all, flags))
  }

  function Render(v: Json, all: Pairs, flags: Flags, trim: Trim): Json {
    if Rewritten(v) then List(seq(|v.items|, i requires 0 <= i < |v.items| => RenderItem(v.items[i], all, flags, trim)))
    else v
  }

  /** Every hidden string of a value has a pseudonym. */
  predicate Covered(v: Json, all: Pairs, flags: Flags, trim: Trim) {
    Rewritten(v) ==> forall i :: 0 <= i < |v.items| && Hides(trim(v.items[i].text), flags) ==> trim(v.items[i].text) in all
  }

  predicate Includes(b: Pairs, a: Pairs) {
    forall k :: k in a ==> k in b && b[k] == a[k]
  }

  /** The text is a hidden string of the value. */
  predicate OccursIn(text: string, v: Json, flags: Flags, trim: Trim) {
    Rewritten(v) && Hides(text, flags) && exists i :: 0 <= i < |v.items| && trim(v.items[i].text) == text
  }

  /** The output has the same keys, lists of the same lengths and the same other values;
      all replacements come from one map, whose new part holds only hidden strings of
      this configuration that had no pseudonym yet. */
  ghost predicate Obfuscates(config: Config, out: Config, known: Pairs, pairs: Pairs, flags: Flags, trim: Trim) {
    && out.Keys == config.Keys
    && (forall k :: k in config ==> out[k] == Render(config[k], known + pairs, flags, trim))
    && (forall k :: k in config ==> Covered(config[k], known + pairs, flags, trim))
    && (forall t :: t in pairs ==> t !in known && exists k :: k in config && OccursIn(t, config[k], flags, trim))
  }

  /** More pairs do not change what is rendered from enough of them. */
  lemma RenderStable(v: Json, a: Pairs, b: Pairs, flags: Flags, trim: Trim)
    requires Covered(v, a, flags, trim) && Includes(b, a)
    ensures Covered(v, b, flags, trim) && Render(v, a, flags, trim) == Render(v, b, flags, trim)
  {
    if Rewritten(v) {
      forall i | 0 <= i < |v.items|
        ensures RenderItem(v.items[i], a, flags, trim) == RenderItem(v.items[i], b, flags, trim)
      {
      }
    }
  }

  /** Equal strings get equal replacements, wherever they stand. */
  lemma EqualStringsEqualReplacements(config: Config, out: Config, known: Pairs, pairs: Pairs, flags: Flags, trim: Trim,
                                      k: string, i: nat, k': string, i': nat)
    requires Obfuscates(config, out, known, pairs, flags, trim)
    requires k in config && Rewritten(config[k]) && i < |config[k].items|
    requires k' in config && Rewritten(config[k']) && i' < |config[k'].items|
    requires trim(config[k].items[i].text) == trim(config[k'].items[i'].text)
    ensures out[k].List? && i < |out[k].items| && out[k'].List? && i' < |out[k'].items|
    ensures out[k].items[i] == out[k'].items[i']
  {
  }

  /** One string of the output: the pseudonym of what stood there, or the same text. */
  ghost predicate ItemIs(config: Config, out: Config, k: string, i: nat, text: string) {
    k in config && Rewritten(config[k]) && i < |config[k].items| &&
    k in out && out[k].List? && i < |out[k].items| && out[k].items[i] == Str(text)
  }

  /** What stands in the output for each kind of text: nothing sensitive stays, and
      nothing else is touched. */
  lemma OutputHidesExactly(config: Config, out: Config, known: Pairs, pairs: Pairs, flags: Flags, trim: Trim, k: string, i: nat)
    requires Obfuscates(config, out, known, pairs, flags, trim)
    requires k in config && Rewritten(config[k]) && i < |config[k].items|
    ensures var text, all := trim(config[k].items[i].text), known + pairs;
            if (PointText(text) && !flags.clearChanIDs) || (KeyText(text) && !flags.clearPubkeys) ||
               (ChanIdText(text) && !flags.clearChanIDs)
            then text in all && ItemIs(config, out, k, i, all[text])
            else ItemIs(config, out, k, i, text)
  {
    HiddenIff(trim(config[k].items[i].text), flags);
  }

  /** So with no flag set no node key, channel point or channel id is in the output, except
      where it is some text's pseudonym. */
  lemma NothingSensitiveLeft(config: Config, out: Config, known: Pairs, pairs: Pairs, flags: Flags, trim: Trim, k: string, i: nat,
                             text: string)
    requires Obfuscates(config, out, known, pairs, flags, trim) && !flags.clearChanIDs && !flags.clearPubkeys
    requires ItemIs(config, out, k, i, text) && (PointText(text) || KeyText(text) || ChanIdText(text))
    ensures text in (known + pairs).Values
  {
    OutputHidesExactly(config, out, known, pairs, flags, trim, k, i);
  }

  lemma OccurringIsCovered(t: string, v: Json, all: Pairs, flags: Flags, trim: Trim)
    requires OccursIn(t, v, flags, trim) && Covered(v, all, flags, trim)
    ensures t in all
  {
  }

  lemma NoNewPairs(config: Config, again: Config, known: Pairs, more: Pairs, flags: Flags, trim: Trim)
    requires Obfuscates(config, again, known, more, flags, trim)
    requires forall k :: k in config ==> Covered(config[k], known, flags, trim)
    ensures more == map[]
  {
    if more.Keys != {} {
      var t :| t in more;
      var k :| k in config && OccursIn(t, config[k], flags, trim);
      OccurringIsCovered(t, config[k], known, flags, trim);
      assert false;
    }
  }

  /** Running again with the new pairs known gives the same output and no new pairs. */
  lemma RerunIsStable(config: Config, out: Config, again: Config, known: Pairs, pairs: Pairs, more: Pairs,
                      flags: Flags, trim: Trim)
    requires Obfuscates(config, out, known, pairs, flags, trim)
    requires Obfuscates(config, again, known + pairs, more, flags, trim)
    ensures more == map[] && again == out
  {
    var all := known + pairs;
    NoNewPairs(config, again, all, more, flags, trim);
    MergeNothing(all, more);
    SameRendering(config, out, again, all, flags, trim);
  }

  lemma MergeNothing(a: Pairs, b: Pairs)
    requires b == map[]
    ensures a + b == a
  {
  }

  lemma MergeMore(known: Pairs, a: Pairs, b: Pairs)
    requires known.Keys !! b.Keys && Includes(b, a)
    ensures Includes(known + b, known + a)
  {
  }

  lemma MergeAgain(a: Pairs, b: Pairs, c: Pairs)
    ensures (a + b) + c == a + (b + c)
  {
  }

  lemma SameRendering(config: Config, a: Config, b: Config, all: Pairs, flags: Flags, trim: Trim)
    requires a.Keys == config.Keys && b.Keys == config.Keys
    requires forall k :: k in config ==> a[k] == Render(config[k], all, flags, trim)
    requires forall k :: k in config ==> b[k] == Render(config[k], all, flags, trim)
    ensures a == b
  {
  }

  // ---- The computation ----

  type Nibble = n: nat | n < 16

  /** What one pseudonym is made of: characters of the alphabet and an output index. */
  datatype Random = Random(digits: nat -> Nibble, index: Uint32)

  /** The random source: what is drawn for the n-th pseudonym, or a failure. */
  type Source = nat -> Option<Random>

  function PseudoStr(n: nat, r: Random): (s: string)
    ensures |s| == n
  {
    seq(n, i requires 0 <= i < n => HexChar(r.digits(i)))
  }

  lemma PseudoStrIsLower(n: nat, r: Random)
    ensures LowerHex(PseudoStr(n, r))
  {
    forall i | 0 <= i < n ensures '0' <= PseudoStr(n, r)[i] <= '9' || 'a' <= PseudoStr(n, r)[i] <= 'f' {
      assert PseudoStr(n, r)[i] == HexChar(r.digits(i));
    }
  }

  /** A pseudonym depends on the kind and the length of the text that it stands for and on
      nothing else of it. */
  function Pseudonym(point: bool, length: nat, r: Random): string {
    if point then FormatPoint(ChanPoint(PseudoStr(64, r), r.index)) else PseudoStr(length, r)
  }

  method NewPseudoStr(n: nat, r: Random) returns (s: string)
    ensures s == PseudoStr(n, r)
  {
    s := "";
    for i := 0 to n
      invariant s == PseudoStr(i, r)
    {
      s := s + [HexChar(r.digits(i))];
    }
  }

  /** Every new pair has a draw of its own, which alone makes its pseudonym. */
  ghost predicate DrawnFrom(pairs: Pairs, at: map<string, nat>, draw: Source, bound: nat) {
    && at.Keys == pairs.Keys
    && (forall t :: t in at ==> at[t] < bound && draw(at[t]).Some? && pairs[t] == Pseudonym(PointText(t), |t|, draw(at[t]).value))
    && (forall t, u :: t in at && u in at && t != u ==> at[t] != at[u])
  }

  /** A key is replaced by what looks like a key, a channel point by a channel point, and
      any other text by one of its length over the alphabet. */
  lemma PseudonymsLookAlike(pairs: Pairs, at: map<string, nat>, draw: Source, bound: nat, t: string)
    requires DrawnFrom(pairs, at, draw, bound) && t in pairs
    ensures KeyText(t) ==> KeyText(pairs[t])
    ensures PointText(t) ==> PointText(pairs[t]) && LowerHex(pairs[t][..64])
    ensures !PointText(t) ==> LowerHex(pairs[t]) && |pairs[t]| == |t|
  {
    var r := draw(at[t]).value;
    PseudoStrIsLower(|t|, r);
    PseudoStrIsLower(64, r);
    if PointText(t) {
      HiddenIff(t, Flags(false, false));
      var p := ChanPoint(PseudoStr(64, r), r.index);
      ChanPointHiddenIff(p, Flags(false, false));
      assert FormatPoint(p)[..64] == p.txid;
    }
  }

  lemma DrawsOne(pairs: Pairs, at: map<string, nat>, draw: Source, n: nat, value: string, pseudo: string)
    requires DrawnFrom(pairs, at, draw, n) && value !in pairs && draw(n).Some?
    requires pseudo == Pseudonym(PointText(value), |value|, draw(n).value)
    ensures DrawnFrom(pairs[value := pseudo], at[value := n], draw, n + 1)
  {
  }

  lemma DrawsNone(pairs: Pairs, at: map<string, nat>, draw: Source, n: nat)
    requires DrawnFrom(pairs, at, draw, n)
    ensures DrawnFrom(pairs, at, draw, n + 1)
  {
  }

  method NewPseudonym(value: string, r: Random) returns (pseudo: string)
    ensures pseudo == Pseudonym(PointText(value), |value|, r)
  {
    PointTextIff(value);
    if DecodeChannelPoint(value).Some? {
      var txid := NewPseudoStr(TXID_LEN, r);
      return FormatPoint(ChanPoint(txid, r.index));
    }
    pseudo := NewPseudoStr(|value|, r);
  }

  /** What becomes of one string, and of the new pairs. */
  ghost predicate ValueDone(value: string, text: string, known: Pairs, pairs: Pairs, pairs': Pairs, flags: Flags) {
    && text == Replacement(value, known + pairs', flags)
    && (Hides(value, flags) ==> value in known + pairs')
    && known.Keys !! pairs'.Keys
    && (pairs' == pairs || (Hides(value, flags) && pairs' == pairs[value := text]))
    && Includes(pairs', pairs)
  }

  lemma ValueFound(value: string, known: Pairs, pairs: Pairs, flags: Flags)
    requires known.Keys !! pairs.Keys
    ensures !Hides(value, flags) ==> ValueDone(value, value, known, pairs, pairs, flags)
    ensures Hides(value, flags) && value in pairs ==> ValueDone(value, pairs[value], known, pairs, pairs, flags)
    ensures Hides(value, flags) && value in known ==> ValueDone(value, known[value], known, pairs, pairs, flags)
  {
  }

  lemma ValueDrawn(value: string, pseudo: string, known: Pairs, pairs: Pairs, flags: Flags)
    requires known.Keys !! pairs.Keys && Hides(value, flags) && value !in known && value !in pairs
    ensures ValueDone(value, pseudo, known, pairs, pairs[value := pseudo], flags)
  {
  }

  /** The replacement of one string, which may add a pair. */
  method ObfuscateValue(value: string, known: Pairs, pairs: Pairs, flags: Flags, draw: Source, n: nat, ghost at: map<string, nat>)
    returns (r: Option<(string, Pairs)>, ghost at': map<string, nat>)
    requires known.Keys !! pairs.Keys && DrawnFrom(pairs, at, draw, n)
    ensures r.None? ==> draw(n).None?
    ensures r.Some? ==> ValueDone(value, r.value.0, known, pairs, r.value.1, flags) && DrawnFrom(r.value.1, at', draw, n + 1)
  {
    at' := at;
    DrawsNone(pairs, at, draw, n);
    ValueFound(value, known, pairs, flags);
    if !Hides(value, flags) {
      return Some((value, pairs)), at';
    }
    if value in pairs {
      return Some((pairs[value], pairs)), at';
    }
    if value in known {
      return Some((known[value], pairs)), at';
    }
    var random := draw(n);
    if random.None? {
      return None, at';
    }
    var pseudo := NewPseudonym(value, random.value);
    DrawsOne(pairs, at, draw, n, value, pseudo);
    ValueDrawn(value, pseudo, known, pairs, flags);
    return Some((pseudo, pairs[value := pseudo])), at[value := n];
  }

  /** What a list of strings has become after its first n items, with all the pairs in
      use and those of them that are new. */
  ghost predicate ListDone(v: Json, n: nat, values: seq<Json>, all: Pairs, prior: Pairs, pairs: Pairs, flags: Flags, trim: Trim) {
    && Rewritten(v) && n == |values| <= |v.items| && Includes(pairs, prior)
    && (forall i :: 0 <= i < n ==> values[i] == RenderItem(v.items[i], all, flags, trim))
    && (forall i :: 0 <= i < n && Hides(trim(v.items[i].text), flags) ==> trim(v.items[i].text) in all)
    && (forall t :: t in pairs && t !in prior ==> OccursIn(t, v, flags, trim))
  }

  ghost predicate ListSoFar(v: Json, n: nat, values: seq<Json>, known: Pairs, prior: Pairs, pairs: Pairs, flags: Flags, trim: Trim) {
    ListDone(v, n, values, known + pairs, prior, pairs, flags, trim) && known.Keys !! pairs.Keys
  }

  lemma ListNext(v: Json, n: nat, values: seq<Json>, known: Pairs, prior: Pairs, pairs: Pairs, flags: Flags, trim: Trim,
                 value: string, pairs': Pairs)
    requires ListSoFar(v, n, values, known, prior, pairs, flags, trim) && n < |v.items|
    requires ValueDone(trim(v.items[n].text), value, known, pairs, pairs', flags)
    ensures ListSoFar(v, n + 1, values + [Str(value)], known, prior, pairs', flags, trim)
  {
    MergeMore(known, pairs, pairs');
  }

  /** What a whole list has become. */
  ghost predicate ListIs(v: Json, value: Json, known: Pairs, prior: Pairs, pairs: Pairs, flags: Flags, trim: Trim) {
    && value == Render(v, known + pairs, flags, trim)
    && Covered(v, known + pairs, flags, trim)
    && known.Keys !! pairs.Keys && Includes(pairs, prior)
    && (forall t :: t in pairs && t !in prior ==> OccursIn(t, v, flags, trim))
  }

  lemma ListComplete(v: Json, values: seq<Json>, known: Pairs, prior: Pairs, pairs: Pairs, flags: Flags, trim: Trim)
    requires ListDone(v, |values|, values, known + pairs, prior, pairs, flags, trim) && |values| == |v.items|
    requires known.Keys !! pairs.Keys
    ensures ListIs(v, List(values), known, prior, pairs, flags, trim)
  {
    assert List(values) == Render(v, known + pairs, flags, trim);
  }

  method ObfuscateList(v: Json, known: Pairs, pairs: Pairs, flags: Flags, trim: Trim, draw: Source, start: nat,
                       ghost at: map<string, nat>)
    returns (r: Option<(Json, Pairs)>, drawn: nat, ghost at': map<string, nat>)
    requires Rewritten(v) && known.Keys !! pairs.Keys && DrawnFrom(pairs, at, draw, start)
    ensures r.None? ==> exists n :: draw(n).None?
    ensures r.Some? ==> ListIs(v, r.value.0, known, pairs, r.value.1, flags, trim) && DrawnFrom(r.value.1, at', draw, drawn)
  {
    var values: seq<Json> := [];
    var now := pairs;
    drawn, at' := start, at;
    for i := 0 to |v.items|
      invariant ListSoFar(v, i, values, known, pairs, now, flags, trim)
      invariant DrawnFrom(now, at', draw, drawn)
    {
      var one;
      one, at' := ObfuscateValue(trim(v.items[i].text), known, now, flags, draw, drawn, at');
      if one.None? {
        return None, drawn, at';
      }
      ListNext(v, i, values, known, pairs, now, flags, trim, one.value.0, one.value.1);
      values, now, drawn := values + [Str(one.value.0)], one.value.1, drawn + 1;
    }
    ListComplete(v, values, known, pairs, now, flags, trim);
    return Some((List(values), now)), drawn, at';
  }

  /** What has become of the configuration after some of its keys. */
  ghost predicate ConfigDone(config: Config, rest: set<string>, out: Config, all: Pairs, pairs: Pairs, flags: Flags, trim: Trim) {
    && rest <= config.Keys && out.Keys == config.Keys - rest
    && (forall k :: k in out ==> !Mixed(config[k]) && Covered(config[k], all, flags, trim))
    && (forall k :: k in out ==> out[k] == Render(config[k], all, flags, trim))
    && (forall t :: t in pairs ==> exists k :: k in config && OccursIn(t, config[k], flags, trim))
  }

  lemma ConfigNext(config: Config, rest: set<string>, out: Config, all: Pairs, pairs: Pairs, flags: Flags, trim: Trim,
                   key: string, v: Json, all': Pairs, pairs': Pairs)
    requires ConfigDone(config, rest, out, all, pairs, flags, trim) && key in rest && !Mixed(config[key])
    requires Includes(all', all)
    requires Covered(config[key], all', flags, trim) && v == Render(config[key], all', flags, trim)
    requires forall t :: t in pairs' && t !in pairs ==> OccursIn(t, config[key], flags, trim)
    ensures ConfigDone(config, rest - {key}, out[key := v], all', pairs', flags, trim)
  {
    forall k | k in out
      ensures Covered(config[k], all', flags, trim) && out[k] == Render(config[k], all', flags, trim)
    {
      RenderStable(config[k], all, all', flags, trim);
    }
  }

  /** Only a list that mixes strings with other values, or the random source, makes it
      fail; otherwise the result is as required. */
  method ObfuscateConfig(config: Config, known: Pairs, flags: Flags, trim: Trim, draw: Source)
    returns (r: Option<(Config, Pairs)>, ghost at: map<string, nat>)
    ensures r.Some? ==> exists n :: DrawnFrom(r.value.1, at, draw, n)
    ensures r.Some? ==> Obfuscates(config, r.value.0, known, r.value.1, flags, trim)
    ensures r.Some? ==> forall k :: k in config ==> !Mixed(config[k])
    ensures r.None? ==> (exists k :: k in config && Mixed(config[k])) || exists n :: draw(n).None?
  {
    var out: Config, pairs: Pairs := map[], map[];
    var rest, drawn := config.Keys, 0;
    at := map[];
    while rest != {}
      invariant ConfigDone(config, rest, out, known + pairs, pairs, flags, trim) && known.Keys !! pairs.Keys
      invariant DrawnFrom(pairs, at, draw, drawn)
      decreases rest
    {
      var k :| k in rest;
      var v := config[k];
      if Mixed(v) {
        return None, at;
      }
      var value, more := v, pairs;
      if Rewritten(v) {
        var one, n;
        one, n, at := ObfuscateList(v, known, pairs, flags, trim, draw, drawn, at);
        if one.None? {
          return None, at;
        }
        value, more, drawn := one.value.0, one.value.1, n;
      }
      MergeMore(known, pairs, more);
      ConfigNext(config, rest, out, known + pairs, pairs, flags, trim, k, value, known + more, more);
      rest, out, pairs := rest - {k}, out[k := value], more;
    }
    return Some((out, pairs)), at;
  }

  // ---- All features of a session ----

  /** Every configuration so far is rendered from one map of pairs. */
  ghost predicate FeaturesDone(configs: map<string, Config>, rest: set<string>, outs: map<string, Config>,
                               all: Pairs, flags: Flags, trim: Trim) {
    && rest <= configs.Keys && outs.Keys == configs.Keys - rest
    && forall f, k :: f in outs && k in configs[f] ==>
         && k in outs[f] && Covered(configs[f][k], all, flags, trim)
         && outs[f][k] == Render(configs[f][k], all, flags, trim)
  }

  lemma FeaturesNext(configs: map<string, Config>, rest: set<string>, outs: map<string, Config>, all: Pairs,
                     flags: Flags, trim: Trim, f: string, out: Config, pairs: Pairs)
    requires FeaturesDone(configs, rest, outs, all, flags, trim) && f in rest
    requires Obfuscates(configs[f], out, all, pairs, flags, trim)
    ensures FeaturesDone(configs, rest - {f}, outs[f := out], all + pairs, flags, trim)
  {
    forall g, k | g in outs && k in configs[g]
      ensures Covered(configs[g][k], all + pairs, flags, trim) && outs[g][k] == Render(configs[g][k], all + pairs, flags, trim)
    {
      RenderStable(configs[g][k], all, all + pairs, flags, trim);
    }
  }

  /** Obfuscating all features one after the other: adding the new pairs to the known
      ones never fails, no known pair changes, and in the end all features are rendered
      from one and the same map. */
  method ObfuscateFeatures(configs: map<string, Config>, known: PrivacyMapPairs, flags: Flags, trim: Trim, draw: (nat, nat) -> Option<Random>)
    returns (r: Option<(map<string, Config>, Pairs)>)
    modifies known
    ensures r.None? ==>
              (exists f, k :: f in configs && k in configs[f] && Mixed(configs[f][k])) || exists i, n :: draw(i, n).None?
    ensures r.Some? ==>
              && known.pairs == old(known.pairs) + r.value.1 && old(known.pairs).Keys !! r.value.1.Keys
              && FeaturesDone(configs, {}, r.value.0, known.pairs, flags, trim)
  {
    var outs: map<string, Config>, added: Pairs := map[], map[];
    var rest, i := configs.Keys, 0;
    while rest != {}
      invariant FeaturesDone(configs, rest, outs, known.pairs, flags, trim)
      invariant known.pairs == old(known.pairs) + added && old(known.pairs).Keys !! added.Keys
      decreases rest
    {
      var f :| f in rest;
      var one, _ := ObfuscateConfig(configs[f], known.pairs, flags, trim, (n: nat) => draw(i, n));
      if one.None? {
        return None;
      }
      ghost var before := added;
      FeaturesNext(configs, rest, outs, known.pairs, flags, trim, f, one.value.0, one.value.1);
      rest, outs, added, i := rest - {f}, outs[f := one.value.0], added + one.value.1, i + 1;
      MergeAgain(old(known.pairs), before, one.value.1);
      var ok := known.Add(one.value.1);
      assert ok;
    }
    return Some((outs, added));
  }
}
