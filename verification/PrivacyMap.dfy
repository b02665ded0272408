/** The privacy map of a session group: two buckets that translate actual values to
    pseudonyms and back, and the functions that hide and reveal values through them. */
module PrivacyMap {
  import opened AccountTypes
  import opened Wire
  import opened Text

  datatype Maps = Maps(toPseudo: map<string, string>, toReal: map<string, string>)

  const EMPTY_MAPS := Maps(map[], map[])

  /** An empty value reads as no value. */
  function Fetch(m: map<string, string>, k: string): Option<string> {
    if k in m && m[k] != "" then Some(m[k]) else None
  }

  /** The map with one more pair, unless either side is taken or empty. */
  function NewPair(m: Maps, actual: string, pseudo: string): Option<Maps> {
    if Fetch(m.toPseudo, actual).Some? || Fetch(m.toReal, pseudo).Some? || actual == "" || pseudo == "" then None
    else Some(Maps(m.toPseudo[actual := pseudo], m.toReal[pseudo := actual]))
  }

  /** The two buckets are inverse to each other. */
  ghost predicate Inverse(f: map<string, string>, g: map<string, string>) {
    && (forall r :: r in f ==> f[r] in g && g[f[r]] == r)
    && (forall p :: p in g ==> g[p] in f && f[g[p]] == p)
  }

  ghost predicate Bijective(m: Maps) {
    Inverse(m.toPseudo, m.toReal) && "" !in m.toPseudo && "" !in m.toReal
  }

  ghost predicate Extends(a: Maps, b: Maps) {
    forall r :: r in a.toPseudo ==> r in b.toPseudo && b.toPseudo[r] == a.toPseudo[r]
  }

  lemma NonEmptyValues(m: Maps)
    requires Bijective(m)
    ensures forall r :: r in m.toPseudo ==> m.toPseudo[r] != ""
    ensures forall p :: p in m.toReal ==> m.toReal[p] != ""
  {
    assert forall r :: r in m.toPseudo ==> m.toPseudo[r] in m.toReal;
    assert forall p :: p in m.toReal ==> m.toReal[p] in m.toPseudo;
  }

  lemma NewPairKeeps(m: Maps, actual: string, pseudo: string)
    requires Bijective(m) && NewPair(m, actual, pseudo).Some?
    ensures Bijective(NewPair(m, actual, pseudo).value) && Extends(m, NewPair(m, actual, pseudo).value)
  {
    NonEmptyValues(m);
  }

  /** The map after a sequence of attempts to add pairs. */
  function AddPairs(m: Maps, pairs: seq<(string, string)>): Maps
    decreases |pairs|
  {
    if pairs == [] then m
    else
      var m' := NewPair(m, pairs[0].0, pairs[0].1);
      AddPairs(if m'.Some? then m'.value else m, pairs[1..])
  }

  /** Whatever is added in whatever order, the buckets stay inverse to each other and
      pairs never change. */
  lemma {:induction false} AddPairsKeeps(m: Maps, pairs: seq<(string, string)>)
    requires Bijective(m)
    ensures Bijective(AddPairs(m, pairs)) && Extends(m, AddPairs(m, pairs))
    decreases |pairs|
  {
    if pairs != [] {
      var m' := NewPair(m, pairs[0].0, pairs[0].1);
      if m'.Some? {
        NewPairKeeps(m, pairs[0].0, pairs[0].1);
        AddPairsKeeps(m'.value, pairs[1..]);
      } else {
        AddPairsKeeps(m, pairs[1..]);
      }
    }
  }

  // ---- Hiding and revealing ----

  /** What hiding returns: the map, which may have a new pair, and the pseudonym. */
  datatype Hidden<+T> = Refused | Hidden(maps: Maps, value: T)

  /** The pseudonym of an actual value; the candidate is used if there is none yet. */
  function HideString(m: Maps, actual: string, candidate: string): Hidden<string> {
    var known := Fetch(m.toPseudo, actual);
    if known.Some? then Hidden(m, known.value)
    else
      var m' := NewPair(m, actual, candidate);
      if m'.None? then Refused else Hidden(m'.value, candidate)
  }

  function RevealString(m: Maps, pseudo: string): Option<string> {
    if pseudo == "" then Some("") else Fetch(m.toReal, pseudo)
  }

  function Decoded<T, U>(h: Hidden<T>, decode: T -> Option<U>): Hidden<U> {
    if h.Refused? || decode(h.value).None? then Refused else Hidden(h.maps, decode(h.value).value)
  }

  function HideBytes(m: Maps, actual: Bytes, candidate: string): Hidden<Bytes> {
    Decoded(HideString(m, HexEncode(actual), candidate), HexDecode)
  }

  function RevealBytes(m: Maps, pseudo: Bytes): Option<Bytes> {
    var actual := RevealString(m, HexEncode(pseudo));
    if actual.None? then None else HexDecode(actual.value)
  }

  function HideUint64(m: Maps, actual: Uint64, candidate: Uint64): Hidden<Uint64> {
    Decoded(HideString(m, Uint64ToStr(actual), Uint64ToStr(candidate)), StrToUint64)
  }

  function RevealUint64(m: Maps, pseudo: Uint64): Option<Uint64> {
    if pseudo == 0 then Some(0)
    else
      var actual := Fetch(m.toReal, Uint64ToStr(pseudo));
      if actual.None? then None else StrToUint64(actual.value)
  }

  function HideChanPoint(m: Maps, actual: ChanPoint, candidate: ChanPoint): Hidden<ChanPoint> {
    Decoded(HideString(m, FormatPoint(actual), FormatPoint(candidate)), DecodeChannelPoint)
  }

  function RevealChanPoint(m: Maps, pseudo: ChanPoint): Option<ChanPoint> {
    var actual := Fetch(m.toReal, FormatPoint(pseudo));
    if actual.None? then None else DecodeChannelPoint(actual.value)
  }

  // ---- Runs ----

  /** A call that hides a value, with the random candidate that it draws. */
  datatype Call =
    | Str(text: string, candidate: string)
    | Raw(bytes: Bytes, candidate: string)
    | Num(number: Uint64, drawn: Uint64)
    | Point(point: ChanPoint, other: ChanPoint)

  /** Candidates are drawn from the alphabet, in the length of the actual value. */
  predicate Proper(c: Call) {
    match c
    case Str(text, cand) => LowerHex(cand) && |cand| == |text|
    case Raw(bytes, cand) => LowerHex(cand) && |cand| == 2 * |bytes|
    case Num(_, _) => true
    case Point(_, other) => LowerHex(other.txid) && |other.txid| == TXID_LEN
  }

  function Step(m: Maps, c: Call): Maps {
    match c
    case Str(text, cand) => var h := HideString(m, text, cand); if h.Refused? then m else h.maps
    case Raw(bytes, cand) => var h := HideBytes(m, bytes, cand); if h.Refused? then m else h.maps
    case Num(n, cand) => var h := HideUint64(m, n, cand); if h.Refused? then m else h.maps
    case Point(p, other) => var h := HideChanPoint(m, p, other); if h.Refused? then m else h.maps
  }

  function Run(m: Maps, calls: seq<Call>): Maps
    decreases |calls|
  {
    if calls == [] then m else Run(Step(m, calls[0]), calls[1..])
  }

  /** A text that is the written form of a channel point. */
  predicate WrittenPoint(s: string) {
    var p := DecodeChannelPoint(s);
    p.Some? && GoodTxid(p.value.txid) && FormatPoint(p.value) == s
  }

  /** A pseudonym is text over the alphabet, of the same length, or, for a key with a
      colon, a channel point. */
  predicate Suits(actual: string, pseudo: string) {
    (LowerHex(pseudo) && |pseudo| == |actual|) || (!NoColon(actual) && WrittenPoint(pseudo))
  }

  ghost predicate Inv(m: Maps) {
    Bijective(m) && forall r :: r in m.toPseudo ==> Suits(r, m.toPseudo[r])
  }

  lemma HideStringKeeps(m: Maps, actual: string, candidate: string)
    requires Inv(m) && Suits(actual, candidate)
    ensures var h := HideString(m, actual, candidate);
            h.Hidden? ==>
              && Inv(h.maps) && Extends(m, h.maps)
              && actual in h.maps.toPseudo && h.maps.toPseudo[actual] == h.value && Suits(actual, h.value)
  {
    NonEmptyValues(m);
    if NewPair(m, actual, candidate).Some? {
      NewPairKeeps(m, actual, candidate);
    }
  }

  /** Hexadecimal text has no colon, so it is not a channel point. */
  lemma HexIsNoPoint(s: string)
    requires LowerHex(s)
    ensures DecodeChannelPoint(s).None?
  {
    assert NoColon(s);
    SplitOne(s);
  }

  lemma PointIsWritten(p: ChanPoint)
    requires GoodTxid(p.txid)
    ensures WrittenPoint(FormatPoint(p)) && DecodeChannelPoint(FormatPoint(p)).Some?
  {
    ChanPointRoundTrip(p);
  }

  lemma NumberText(n: Uint64)
    ensures LowerHex(Uint64ToStr(n)) && |Uint64ToStr(n)| == 16
  {
    HexIsLower(BigEndian(n, 8));
    HexRoundTrip(BigEndian(n, 8));
  }

  /** The text under which a call looks its value up, and the candidate as text. */
  function KeyOf(c: Call): string {
    match c
    case Str(text, _) => text
    case Raw(bytes, _) => HexEncode(bytes)
    case Num(n, _) => Uint64ToStr(n)
    case Point(p, _) => FormatPoint(p)
  }

  function CandidateOf(c: Call): string {
    match c
    case Str(_, cand) => cand
    case Raw(_, cand) => cand
    case Num(_, cand) => Uint64ToStr(cand)
    case Point(_, other) => FormatPoint(other)
  }

  lemma ProperSuits(c: Call)
    requires Proper(c)
    ensures Suits(KeyOf(c), CandidateOf(c))
  {
    match c
    case Str(_, _) =>
    case Raw(bytes, cand) => HexRoundTrip(bytes);
    case Num(n, cand) =>
      NumberText(n);
      NumberText(cand);
    case Point(p, other) =>
      PointIsWritten(other);
      assert FormatPoint(p)[|p.txid|] == ':';
  }

  lemma StepKeeps(m: Maps, c: Call)
    requires Inv(m) && Proper(c)
    ensures Inv(Step(m, c)) && Extends(m, Step(m, c))
  {
    ProperSuits(c);
    HideStringKeeps(m, KeyOf(c), CandidateOf(c));
  }

  /** Over every run the buckets stay inverse to each other and no pair ever changes. */
  lemma {:induction false} RunKeeps(m: Maps, calls: seq<Call>)
    requires Inv(m) && forall i :: 0 <= i < |calls| ==> Proper(calls[i])
    ensures Inv(Run(m, calls)) && Extends(m, Run(m, calls))
    decreases |calls|
  {
    if calls != [] {
      StepKeeps(m, calls[0]);
      RunKeeps(Step(m, calls[0]), calls[1..]);
    }
  }

  /** A pseudonym leads back to its actual value in every later state. */
  lemma LeadsBack(m: Maps, later: Maps, actual: string)
    requires Bijective(m) && Bijective(later) && Extends(m, later) && actual in m.toPseudo
    ensures Fetch(later.toReal, m.toPseudo[actual]) == Some(actual) && m.toPseudo[actual] != ""
  {
    NonEmptyValues(m);
    NonEmptyValues(later);
  }

  // ---- Reveal undoes Hide, in any later state ----

  lemma StringRoundTrip(m: Maps, text: string, candidate: string, calls: seq<Call>)
    requires Inv(m) && Proper(Str(text, candidate)) && forall i :: 0 <= i < |calls| ==> Proper(calls[i])
    ensures var h := HideString(m, text, candidate);
            h.Hidden? ==> RevealString(Run(h.maps, calls), h.value) == Some(text)
  {
    var h := HideString(m, text, candidate);
    if h.Hidden? {
      HideStringKeeps(m, text, candidate);
      RunKeeps(h.maps, calls);
      LeadsBack(h.maps, Run(h.maps, calls), text);
    }
  }

  /** Hiding a value again, in any later state and with any other candidate, gives the
      same pseudonym and adds nothing. */
  lemma HiddenOnce(m: Maps, text: string, candidate: string, calls: seq<Call>, other: string)
    requires Inv(m) && Proper(Str(text, candidate)) && forall i :: 0 <= i < |calls| ==> Proper(calls[i])
    ensures var h := HideString(m, text, candidate);
            h.Hidden? ==> HideString(Run(h.maps, calls), text, other) == Hidden(Run(h.maps, calls), h.value)
  {
    var h := HideString(m, text, candidate);
    if h.Hidden? {
      HideStringKeeps(m, text, candidate);
      RunKeeps(h.maps, calls);
      NonEmptyValues(Run(h.maps, calls));
    }
  }

  /** The text under which bytes are hidden, and its pseudonym, stand for bytes. */
  lemma RevealThroughText(later: Maps, key: string, pseudo: string)
    requires LowerHex(pseudo) && |pseudo| % 2 == 0 && pseudo != "" && Fetch(later.toReal, pseudo) == Some(key)
    ensures HexDecode(pseudo).Some? && RevealBytes(later, HexDecode(pseudo).value) == HexDecode(key)
  {
    LowerHexIsCanonical(pseudo);
  }

  lemma KeyOfBytes(bytes: Bytes)
    ensures HexDecode(HexEncode(bytes)) == Some(bytes) && |HexEncode(bytes)| == 2 * |bytes| && |HexEncode(bytes)| % 2 == 0
    ensures NoColon(HexEncode(bytes))
  {
    HexRoundTrip(bytes);
    HexIsLower(bytes);
    Doubled(|bytes|, |HexEncode(bytes)|);
  }

  lemma Doubled(n: nat, m: nat)
    requires m == 2 * n
    ensures m % 2 == 0
  {
  }

  lemma BytesRoundTrip(m: Maps, actual: Bytes, candidate: string, calls: seq<Call>)
    requires Inv(m) && Proper(Raw(actual, candidate)) && forall i :: 0 <= i < |calls| ==> Proper(calls[i])
    ensures var h := HideBytes(m, actual, candidate);
            && (h.Refused? <==> HideString(m, HexEncode(actual), candidate).Refused?)
            && (h.Hidden? ==> RevealBytes(Run(h.maps, calls), h.value) == Some(actual))
  {
    var key := HexEncode(actual);
    var s := HideString(m, key, candidate);
    ProperSuits(Raw(actual, candidate));
    KeyOfBytes(actual);
    if s.Hidden? {
      HideStringKeeps(m, key, candidate);
      RunKeeps(s.maps, calls);
      LeadsBack(s.maps, Run(s.maps, calls), key);
      RevealThroughText(Run(s.maps, calls), key, s.value);
    }
  }

  /** The text under which a number is hidden, and its pseudonym, stand for numbers. */
  lemma RevealThroughDigits(later: Maps, actual: Uint64, pseudo: string)
    requires LowerHex(pseudo) && |pseudo| == 16 && Fetch(later.toReal, pseudo) == Some(Uint64ToStr(actual))
    ensures StrToUint64(pseudo).Some?
    ensures RevealUint64(later, StrToUint64(pseudo).value) == Some(actual) <==> StrToUint64(pseudo).value != 0 || actual == 0
  {
    SixteenDigits(pseudo);
    Uint64TextRoundTrip(actual);
  }

  /** A number comes back unless its pseudonym is zero, which reveals to itself. */
  lemma Uint64RoundTrips(m: Maps, actual: Uint64, candidate: Uint64, calls: seq<Call>)
    requires Inv(m) && forall i :: 0 <= i < |calls| ==> Proper(calls[i])
    ensures var h := HideUint64(m, actual, candidate);
            && (h.Refused? <==> HideString(m, Uint64ToStr(actual), Uint64ToStr(candidate)).Refused?)
            && (h.Hidden? ==> (RevealUint64(Run(h.maps, calls), h.value) == Some(actual) <==> h.value != 0 || actual == 0))
  {
    var key := Uint64ToStr(actual);
    var s := HideString(m, key, Uint64ToStr(candidate));
    ProperSuits(Num(actual, candidate));
    NumberText(actual);
    assert NoColon(key);
    if s.Hidden? {
      HideStringKeeps(m, key, Uint64ToStr(candidate));
      RunKeeps(s.maps, calls);
      LeadsBack(s.maps, Run(s.maps, calls), key);
      RevealThroughDigits(Run(s.maps, calls), actual, s.value);
    }
  }

  /** Only a written channel point among the pseudonyms reads as one. */
  lemma PointPseudonyms(m: Maps, key: string)
    requires Inv(m) && key in m.toPseudo && DecodeChannelPoint(m.toPseudo[key]).Some?
    ensures WrittenPoint(m.toPseudo[key])
  {
    if LowerHex(m.toPseudo[key]) {
      HexIsNoPoint(m.toPseudo[key]);
    }
  }

  /** Exactly when a channel point can be hidden, whatever texts were hidden before: if its
      own key is known, when it is known under a channel point, and otherwise when the
      candidate is free. */
  lemma ChanPointHiddenIff(m: Maps, actual: ChanPoint, candidate: ChanPoint)
    requires Inv(m) && Proper(Point(actual, candidate))
    ensures var key := FormatPoint(actual);
            HideChanPoint(m, actual, candidate).Hidden? <==>
            if key in m.toPseudo then DecodeChannelPoint(m.toPseudo[key]).Some?
            else FormatPoint(candidate) !in m.toReal
  {
    var key := FormatPoint(actual);
    NonEmptyValues(m);
    PointIsWritten(candidate);
    assert key != "" && FormatPoint(candidate) != "";
  }

  /** A channel point that was hidden is revealed in every later state, whatever is hidden
      in between, exactly if its txid has the right length and no colon. */
  lemma ChanPointRoundTrips(m: Maps, actual: ChanPoint, candidate: ChanPoint, calls: seq<Call>)
    requires Inv(m) && Proper(Point(actual, candidate)) && forall i :: 0 <= i < |calls| ==> Proper(calls[i])
    ensures var h := HideChanPoint(m, actual, candidate);
            h.Hidden? ==> (RevealChanPoint(Run(h.maps, calls), h.value) == Some(actual) <==> GoodTxid(actual.txid))
  {
    var key := FormatPoint(actual);
    var s := HideString(m, key, FormatPoint(candidate));
    ProperSuits(Point(actual, candidate));
    if HideChanPoint(m, actual, candidate).Hidden? {
      HideStringKeeps(m, key, FormatPoint(candidate));
      PointPseudonyms(s.maps, key);
      RunKeeps(s.maps, calls);
      LeadsBack(s.maps, Run(s.maps, calls), key);
      ChanPointReadsBackIff(actual);
    }
  }

  /** Hiding is refused only for an empty value or when the candidate is taken. */
  lemma RefusedIff(m: Maps, actual: string, candidate: string)
    requires Inv(m) && Suits(actual, candidate)
    ensures HideString(m, actual, candidate).Refused? <==>
            actual !in m.toPseudo && (actual == "" || candidate == "" || candidate in m.toReal)
  {
    NonEmptyValues(m);
  }
}
