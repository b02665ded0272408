/** Listing actions page by page: a cursor over sorted index keys, a filter that can
    also stop the scan, and two query forms. */
module Pagination {
  import opened AccountTypes

  const MAX_UINT64: Uint64 := TWO_64 - 1

  /** What the filter says about the action stored under a key: leave it out, include
      it, or end the iteration. */
  datatype Verdict = Skip | Accept | Stop

  type Judge = Uint64 -> Verdict

  datatype Query = Query(indexOffset: Uint64, maxNum: Uint64, reversed: bool)

  predicate Sorted(keys: seq<Uint64>) {
    && (forall i, j :: 0 <= i < j < |keys| ==> keys[i] < keys[j])
    && (forall i :: 0 <= i < |keys| ==> keys[i] > 0)
  }

  type Keys = ks: seq<Uint64> | Sorted(ks)

  /** The cursor of a bucket, standing on a key or off either end. */
  class Cursor {
    const keys: Keys
    var pos: int

    ghost predicate Valid()
      reads this
    {
      -1 <= pos <= |keys|
    }

    constructor (ks: Keys)
      ensures Valid() && keys == ks
    {
      keys, pos := ks, -1;
    }

    function Current(): Option<Uint64>
      reads this
    {
      if 0 <= pos < |keys| then Some(keys[pos]) else None
    }

    method Seek(k: Uint64) returns (r: Option<Uint64>)
      requires Valid()
      modifies this
      ensures Valid() && pos == FirstAtLeast(keys, k) && r == Current()
    {
      pos := 0;
      while pos < |keys| && keys[pos] < k
        invariant 0 <= pos <= |keys|
        invariant forall i :: 0 <= i < pos ==> keys[i] < k
      {
        pos := pos + 1;
      }
      FirstAtLeastUnique(keys, k, pos);
      r := Current();
    }

    method First() returns (r: Option<Uint64>)
      requires Valid()
      modifies this
      ensures Valid() && pos == 0 && r == Current()
    {
      pos := 0;
      r := Current();
    }

    method Last() returns (r: Option<Uint64>)
      requires Valid()
      modifies this
      ensures Valid() && pos == |keys| - 1 && r == Current()
    {
      pos := |keys| - 1;
      r := Current();
    }

    /** The next key in the direction of the iteration. */
    method NextKey(reversed: bool) returns (r: Option<Uint64>)
      requires Valid() && Current().Some?
      modifies this
      ensures Valid() && pos == old(pos) + (if reversed then -1 else 1) && r == Current()
    {
      pos := if reversed then pos - 1 else pos + 1;
      r := Current();
    }
  }

  /** How many keys come before the first one that is at least k. */
  function FirstAtLeast(keys: seq<Uint64>, k: int): (i: nat)
    ensures i <= |keys|
    ensures forall j :: 0 <= j < i ==> keys[j] < k
    ensures i < |keys| ==> keys[i] >= k
  {
    if keys == [] || keys[0] >= k then 0
    else
      var i := FirstAtLeast(keys[1..], k);
      assert forall j :: 1 <= j < i + 1 ==> keys[j] == keys[1..][j - 1];
      i + 1
  }

  lemma FirstAtLeastUnique(keys: seq<Uint64>, k: int, i: nat)
    requires Sorted(keys) && i <= |keys|
    requires (forall j :: 0 <= j < i ==> keys[j] < k) && (i < |keys| ==> keys[i] >= k)
    ensures i == FirstAtLeast(keys, k)
  {
  }

  /** The index after an offset, in 64-bit arithmetic. */
  function After(offset: Uint64): Uint64 {
    if offset == MAX_UINT64 then 0 else offset + 1
  }

  predicate OnTrail(keys: seq<Uint64>, i: int, reversed: bool) {
    if reversed then -1 <= i < |keys| else 0 <= i <= |keys|
  }

  /** The keys an iteration visits from a position on. */
  function Trail(keys: seq<Uint64>, i: int, reversed: bool): seq<Uint64>
    requires OnTrail(keys, i, reversed)
    decreases if reversed then i + 1 else |keys| - i
  {
    if i == (if reversed then -1 else |keys|) then []
    else [keys[i]] + Trail(keys, if reversed then i - 1 else i + 1, reversed)
  }

  /** Where an iteration starts; the offset itself is left out. */
  function StartOf(keys: seq<Uint64>, q: Query): (i: int)
    ensures OnTrail(keys, i, q.reversed)
  {
    if !q.reversed then FirstAtLeast(keys, After(q.indexOffset))
    else if q.indexOffset == 0 then |keys| - 1
    else FirstAtLeast(keys, q.indexOffset) - 1
  }

  method CursorStart(c: Cursor, q: Query) returns (r: Option<Uint64>)
    requires c.Valid()
    modifies c
    ensures c.Valid() && r == c.Current() && c.pos == StartOf(c.keys, q)
  {
    r := c.Seek(After(q.indexOffset));
    if q.reversed {
      if q.indexOffset == 0 {
        r := c.Last();
      } else if q.indexOffset == 1 {
        FirstAtLeastUnique(c.keys, 1, 0);
        c.pos := -1;
        return None;
      } else {
        var last := c.Last();
        if last.None? || q.indexOffset > last.value {
          FirstAtLeastUnique(c.keys, q.indexOffset, |c.keys|);
          return last;
        }
        var at := c.Seek(q.indexOffset);
        r := c.NextKey(true);
      }
    }
  }

  lemma {:induction false} TrailMembers(keys: seq<Uint64>, i: int, reversed: bool, j: nat)
    requires Sorted(keys) && OnTrail(keys, i, reversed) && j < |keys|
    ensures keys[j] in Trail(keys, i, reversed) <==> (if reversed then j <= i else i <= j)
    decreases if reversed then i + 1 else |keys| - i
  {
    if i != (if reversed then -1 else |keys|) {
      TrailMembers(keys, if reversed then i - 1 else i + 1, reversed, j);
    }
  }

  lemma StartsForward(keys: seq<Uint64>, q: Query, j: nat)
    requires Sorted(keys) && j < |keys| && !q.reversed && q.indexOffset < MAX_UINT64
    ensures StartOf(keys, q) <= j <==> keys[j] > q.indexOffset
  {
    var i := FirstAtLeast(keys, q.indexOffset + 1);
    if i <= j {
      assert i == j || keys[i] < keys[j];
    }
  }

  lemma StartsReverse(keys: seq<Uint64>, q: Query, j: nat)
    requires Sorted(keys) && j < |keys| && q.reversed
    ensures j <= StartOf(keys, q) <==> q.indexOffset == 0 || keys[j] < q.indexOffset
  {
    var i := FirstAtLeast(keys, q.indexOffset);
    if i <= j {
      assert i == j || keys[i] < keys[j];
    }
  }

  /** The start position is right: an iteration visits exactly the keys beyond the
      offset, as long as the offset has a successor. */
  lemma StartsBeyondOffset(keys: seq<Uint64>, q: Query, j: nat)
    requires Sorted(keys) && j < |keys| && (!q.reversed ==> q.indexOffset < MAX_UINT64)
    ensures keys[j] in Trail(keys, StartOf(keys, q), q.reversed) <==>
            if q.reversed then q.indexOffset == 0 || keys[j] < q.indexOffset else keys[j] > q.indexOffset
  {
    TrailMembers(keys, StartOf(keys, q), q.reversed, j);
    if q.reversed {
      StartsReverse(keys, q, j);
    } else {
      StartsForward(keys, q, j);
    }
  }

  /** The largest offset wraps around, so a forward iteration visits every key again. */
  lemma LargestOffsetWraps(keys: seq<Uint64>, q: Query, j: nat)
    requires Sorted(keys) && j < |keys| && !q.reversed && q.indexOffset == MAX_UINT64
    ensures keys[j] in Trail(keys, StartOf(keys, q), q.reversed)
  {
    FirstAtLeastUnique(keys, 0, 0);
    TrailMembers(keys, 0, false, j);
  }

  function StepFrom(i: int, reversed: bool): int {
    if reversed then i - 1 else i + 1
  }

  /** What is left to return when the cursor stands at a position: the accepted keys, up
      to the first one that stops the scan. */
  function ScanFrom(keys: seq<Uint64>, i: int, reversed: bool, judge: Judge): seq<Uint64>
    requires OnTrail(keys, i, reversed)
    decreases if reversed then i + 1 else |keys| - i
  {
    if i == (if reversed then -1 else |keys|) then []
    else
      match judge(keys[i])
      case Stop => []
      case Skip => ScanFrom(keys, StepFrom(i, reversed), reversed, judge)
      case Accept => [keys[i]] + ScanFrom(keys, StepFrom(i, reversed), reversed, judge)
  }

  function Limit(s: seq<Uint64>, maxNum: Uint64): seq<Uint64> {
    if maxNum == 0 || |s| <= maxNum then s else s[..maxNum]
  }

  /** A page is the beginning of what there is, as long as was asked for if there is that
      much, and all of it if no limit was given. */
  lemma PageLength(s: seq<Uint64>, maxNum: Uint64)
    ensures Limit(s, maxNum) <= s
    ensures |Limit(s, maxNum)| == |s| || (0 < |Limit(s, maxNum)| == maxNum < |s|)
    ensures maxNum > 0 ==> |Limit(s, maxNum)| <= maxNum
  {
  }

  /** Everything a query would return without a limit. */
  function Unlimited(keys: seq<Uint64>, q: Query, judge: Judge): seq<Uint64> {
    ScanFrom(keys, StartOf(keys, q), q.reversed, judge)
  }

  /** How far the query is: what it has, what is left, and the key it looked at last. */
  ghost predicate Querying(q: Query, all: seq<Uint64>, actions: seq<Uint64>, left: seq<Uint64>, lastIndex: Uint64) {
    && all == actions + left
    && (q.maxNum != 0 ==> |actions| <= q.maxNum)
    && FullPageEnds(q, actions, lastIndex)
  }

  /** A full page ends at its last index. */
  predicate FullPageEnds(q: Query, actions: seq<Uint64>, lastIndex: Uint64) {
    q.maxNum != 0 && |actions| == q.maxNum ==> lastIndex == actions[|actions| - 1]
  }

  lemma QueryTakes(q: Query, all: seq<Uint64>, actions: seq<Uint64>, left: seq<Uint64>, lastIndex: Uint64)
    requires Querying(q, all, actions, left, lastIndex) && left != [] && (q.maxNum != 0 ==> |actions| < q.maxNum)
    ensures Querying(q, all, actions + [left[0]], left[1..], left[0])
  {
    TakeHead(actions, left);
  }

  lemma QueryEnds(q: Query, all: seq<Uint64>, actions: seq<Uint64>, left: seq<Uint64>, lastIndex: Uint64)
    requires Querying(q, all, actions, left, lastIndex) && (left == [] || (q.maxNum != 0 && |actions| == q.maxNum))
    ensures actions == Limit(all, q.maxNum)
  {
    assert all[..|actions|] == actions;
  }

  /** What is left at a position, by the verdict there. */
  lemma ScanUnfolds(keys: seq<Uint64>, i: int, reversed: bool, judge: Judge)
    requires OnTrail(keys, i, reversed) && 0 <= i < |keys|
    ensures OnTrail(keys, StepFrom(i, reversed), reversed)
    ensures ScanFrom(keys, i, reversed, judge) ==
            match judge(keys[i])
            case Stop => []
            case Skip => ScanFrom(keys, StepFrom(i, reversed), reversed, judge)
            case Accept => [keys[i]] + ScanFrom(keys, StepFrom(i, reversed), reversed, judge)
  {
  }

  /** At the end of the keys nothing is left. */
  lemma ScanEnds(keys: seq<Uint64>, i: int, reversed: bool, judge: Judge)
    requires OnTrail(keys, i, reversed) && !(0 <= i < |keys|)
    ensures ScanFrom(keys, i, reversed, judge) == [] && |ScanFrom(keys, i, reversed, judge)| == 0
  {
  }

  /** What the cursor still has before it. */
  ghost predicate LeftIs(keys: seq<Uint64>, i: int, reversed: bool, judge: Judge, left: seq<Uint64>) {
    OnTrail(keys, i, reversed) && left == ScanFrom(keys, i, reversed, judge)
  }

  predicate Full(q: Query, actions: seq<Uint64>) {
    q.maxNum != 0 && |actions| >= q.maxNum
  }

  /** The iteration went from a position to another without being stopped, and looked last
      at the key before it, if at any. */
  ghost predicate Walked(keys: seq<Uint64>, start: int, i: int, reversed: bool, judge: Judge, last: Uint64) {
    && OnTrail(keys, start, reversed) && OnTrail(keys, i, reversed) && (if reversed then i <= start else start <= i)
    && (forall k :: Between(start, k, i, reversed) ==> judge(keys[k]) != Stop)
    && if i == start then last == 1 else last == keys[StepFrom(i, !reversed)]
  }

  predicate Between(start: int, k: int, i: int, reversed: bool) {
    if reversed then i < k <= start else start <= k < i
  }

  /** The key that an iteration from a position looks at last, if no limit ends it: one that
      stops it, with none before it, or the last one there is; 1 if there is none. */
  ghost predicate LooksLastAt(keys: seq<Uint64>, start: int, reversed: bool, judge: Judge, last: Uint64)
    requires OnTrail(keys, start, reversed)
  {
    if !(0 <= start < |keys|) then last == 1
    else exists j :: 0 <= j < |keys| && keys[j] == last && (if reversed then j <= start else start <= j) &&
                     (forall k :: Between(start, k, j, reversed) ==> judge(keys[k]) != Stop) &&
                     (judge(keys[j]) == Stop || !(0 <= StepFrom(j, reversed) < |keys|))
  }

  lemma WalkOn(keys: seq<Uint64>, start: int, i: nat, reversed: bool, judge: Judge, last: Uint64)
    requires Walked(keys, start, i, reversed, judge, last) && i < |keys|
    ensures judge(keys[i]) != Stop ==> Walked(keys, start, StepFrom(i, reversed), reversed, judge, keys[i])
    ensures judge(keys[i]) == Stop ==> LooksLastAt(keys, start, reversed, judge, keys[i])
  {
  }

  lemma WalkEnds(keys: seq<Uint64>, start: int, i: int, reversed: bool, judge: Judge, last: Uint64)
    requires Walked(keys, start, i, reversed, judge, last) && !(0 <= i < |keys|)
    ensures LooksLastAt(keys, start, reversed, judge, last)
  {
    if 0 <= start < |keys| {
      var j := StepFrom(i, !reversed);
      assert keys[j] == last && forall k :: Between(start, k, j, reversed) ==> Between(start, k, i, reversed);
    }
  }

  /** One key of the query: the page after it, or the end of the scan. */
  method QueryOne(keys: seq<Uint64>, i: nat, q: Query, judge: Judge, actions: seq<Uint64>, lastIndex: Uint64,
                  ghost all: seq<Uint64>, ghost left: seq<Uint64>)
    returns (page: seq<Uint64>, last: Uint64, stop: bool, ghost left': seq<Uint64>)
    requires i < |keys| && LeftIs(keys, i, q.reversed, judge, left) && Querying(q, all, actions, left, lastIndex)
    ensures Querying(q, all, page, left', last)
    ensures stop ==> left' == [] || (q.maxNum != 0 && |page| == q.maxNum)
    ensures !stop ==> LeftIs(keys, StepFrom(i, q.reversed), q.reversed, judge, left')
    ensures if Full(q, actions) then stop && page == actions else last == keys[i] && (stop <==> judge(keys[i]) == Stop)
  {
    if q.maxNum != 0 && |actions| >= q.maxNum {
      return actions, lastIndex, true, left;
    }
    ScanUnfolds(keys, i, q.reversed, judge);
    match judge(keys[i]) {
      case Stop => return actions, keys[i], true, left;
      case Skip => return actions, keys[i], false, left;
      case Accept =>
        QueryTakes(q, all, actions, left, lastIndex);
        return actions + [keys[i]], keys[i], false, left[1..];
    }
  }

  /** The loop over the keys that are left. */
  method QueryRest(c: Cursor, first: Option<Uint64>, q: Query, judge: Judge, ghost all: seq<Uint64>)
    returns (actions: seq<Uint64>, lastIndex: Uint64, ghost left: seq<Uint64>)
    requires c.Valid() && first == c.Current() && LeftIs(c.keys, c.pos, q.reversed, judge, all)
    requires Querying(q, all, [], all, 1)
    modifies c
    ensures Querying(q, all, actions, left, lastIndex) && (left == [] || (q.maxNum != 0 && |actions| == q.maxNum))
    ensures Full(q, actions) || LooksLastAt(c.keys, old(c.pos), q.reversed, judge, lastIndex)
  {
    ghost var start := c.pos;
    var indexKey, stop := first, false;
    actions, lastIndex, left := [], 1, all;
    while indexKey.Some?
      invariant c.Valid() && indexKey == c.Current() && LeftIs(c.keys, c.pos, q.reversed, judge, left)
      invariant Querying(q, all, actions, left, lastIndex)
      invariant Walked(c.keys, start, c.pos, q.reversed, judge, lastIndex)
      decreases if q.reversed then c.pos + 1 else |c.keys| - c.pos
    {
      WalkOn(c.keys, start, c.pos, q.reversed, judge, lastIndex);
      actions, lastIndex, stop, left := QueryOne(c.keys, c.pos, q, judge, actions, lastIndex, all, left);
      if stop {
        return;
      }
      indexKey := c.NextKey(q.reversed);
    }
    ScanEnds(c.keys, c.pos, q.reversed, judge);
    WalkEnds(c.keys, start, c.pos, q.reversed, judge, lastIndex);
  }

  /** The page, and the key of the last action that was looked at. */
  method RunQuery(c: Cursor, q: Query, judge: Judge) returns (actions: seq<Uint64>, lastIndex: Uint64)
    requires c.Valid()
    modifies c
    ensures actions == Limit(Unlimited(c.keys, q, judge), q.maxNum)
    ensures FullPageEnds(q, actions, lastIndex)
    ensures Full(q, actions) || LooksLastAt(c.keys, StartOf(c.keys, q), q.reversed, judge, lastIndex)
  {
    var indexKey := CursorStart(c, q);
    ghost var all := Unlimited(c.keys, q, judge);
    ghost var left;
    assert [] + all == all;
    actions, lastIndex, left := QueryRest(c, indexKey, q, judge, all);
    QueryEnds(q, all, actions, left, lastIndex);
  }

  lemma TakeHead(s: seq<Uint64>, t: seq<Uint64>)
    requires t != []
    ensures s + t == (s + [t[0]]) + t[1..]
  {
  }

  // ---- Paging through everything ----

  lemma ConsPrefix(k: Uint64, tail: seq<Uint64>, n: nat, rest: seq<Uint64>)
    requires 1 < n <= |tail| + 1 && tail == tail[..n - 1] + rest
    ensures var all := [k] + tail; all[n - 1] == tail[n - 2] && all == all[..n] + rest
  {
    var all := [k] + tail;
    assert all[..n] == [k] + tail[..n - 1];
  }

  /** The n-th accepted key splits a scan into what came before and what follows it. */
  lemma {:induction false} ScanResumes(keys: seq<Uint64>, i: int, reversed: bool, judge: Judge, n: nat) returns (j: nat)
    requires OnTrail(keys, i, reversed) && 0 < n <= |ScanFrom(keys, i, reversed, judge)|
    ensures j < |keys| && (if reversed then j <= i else i <= j) && OnTrail(keys, StepFrom(j, reversed), reversed)
    ensures var all := ScanFrom(keys, i, reversed, judge);
            all[n - 1] == keys[j] && all == all[..n] + ScanFrom(keys, StepFrom(j, reversed), reversed, judge)
    decreases if reversed then i + 1 else |keys| - i
  {
    ScanUnfolds(keys, i, reversed, judge);
    var tail := ScanFrom(keys, StepFrom(i, reversed), reversed, judge);
    if judge(keys[i]) == Skip {
      j := ScanResumes(keys, StepFrom(i, reversed), reversed, judge, n);
    } else if n == 1 {
      j := i;
      assert ([keys[i]] + tail)[..1] == [keys[i]];
    } else {
      j := ScanResumes(keys, StepFrom(i, reversed), reversed, judge, n - 1);
      ConsPrefix(keys[i], tail, n, ScanFrom(keys, StepFrom(j, reversed), reversed, judge));
    }
  }

  /** Going forward, sequence numbers must leave room for a successor. */
  predicate Indexable(keys: seq<Uint64>, reversed: bool) {
    Sorted(keys) && (reversed || forall i :: 0 <= i < |keys| ==> keys[i] < MAX_UINT64)
  }

  /** Giving a key as the offset starts right beyond it. */
  lemma StartAfterKey(keys: seq<Uint64>, q: Query, j: nat)
    requires Indexable(keys, q.reversed) && j < |keys|
    ensures StartOf(keys, q.(indexOffset := keys[j])) == StepFrom(j, q.reversed)
  {
    if q.reversed {
      FirstAtLeastUnique(keys, keys[j], j);
    } else {
      FirstAtLeastUnique(keys, keys[j] + 1, j + 1);
    }
  }

  lemma {:induction false} TrailLength(keys: seq<Uint64>, i: int, reversed: bool)
    requires OnTrail(keys, i, reversed)
    ensures |Trail(keys, i, reversed)| == if reversed then i + 1 else |keys| - i
    decreases if reversed then i + 1 else |keys| - i
  {
    if i != (if reversed then -1 else |keys|) {
      TrailLength(keys, StepFrom(i, reversed), reversed);
    }
  }

  /** How many keys a query has before it. */
  function Remaining(keys: seq<Uint64>, q: Query): nat {
    |Trail(keys, StartOf(keys, q), q.reversed)|
  }

  lemma RemainingIs(keys: seq<Uint64>, q: Query)
    ensures Remaining(keys, q) == if q.reversed then StartOf(keys, q) + 1 else |keys| - StartOf(keys, q)
  {
    TrailLength(keys, StartOf(keys, q), q.reversed);
  }

  /** Resuming at a key of the scan leaves fewer keys. */
  lemma ResumedAt(keys: seq<Uint64>, q: Query, judge: Judge, j: nat)
    requires Indexable(keys, q.reversed) && j < |keys| && OnTrail(keys, StepFrom(j, q.reversed), q.reversed)
    requires if q.reversed then j <= StartOf(keys, q) else StartOf(keys, q) <= j
    ensures var next := q.(indexOffset := keys[j]);
            && Unlimited(keys, next, judge) == ScanFrom(keys, StepFrom(j, q.reversed), q.reversed, judge)
            && Remaining(keys, next) < Remaining(keys, q)
  {
    StartAfterKey(keys, q, j);
    RemainingIs(keys, q);
    RemainingIs(keys, q.(indexOffset := keys[j]));
  }

  /** A full page and the query resumed at its last key are the whole query, and the
      resumed query has fewer keys before it. */
  lemma NextPage(keys: seq<Uint64>, q: Query, judge: Judge)
    requires Indexable(keys, q.reversed) && q.maxNum > 0 && |Unlimited(keys, q, judge)| >= q.maxNum
    ensures var page := Limit(Unlimited(keys, q, judge), q.maxNum);
            var next := q.(indexOffset := page[|page| - 1]);
            && Unlimited(keys, q, judge) == page + Unlimited(keys, next, judge)
            && Remaining(keys, next) < Remaining(keys, q)
  {
    var all := Unlimited(keys, q, judge);
    var j := ScanResumes(keys, StartOf(keys, q), q.reversed, judge, q.maxNum);
    ResumedAt(keys, q, judge, j);
    FullPage(all, q.maxNum);
    assert Limit(all, q.maxNum)[q.maxNum - 1] == keys[j];
  }

  lemma FullPage(all: seq<Uint64>, maxNum: Uint64)
    requires 0 < maxNum <= |all|
    ensures var page := Limit(all, maxNum); page == all[..maxNum] && page[|page| - 1] == all[maxNum - 1]
  {
  }

  /** What a caller collects that feeds the last index of each full page back as the
      offset of the next query, until a page comes back short. */
  function AllPages(keys: seq<Uint64>, q: Query, judge: Judge): seq<seq<Uint64>>
    requires Indexable(keys, q.reversed) && q.maxNum > 0
    decreases Remaining(keys, q)
  {
    var page := Limit(Unlimited(keys, q, judge), q.maxNum);
    if |page| < q.maxNum then [page]
    else
      NextPage(keys, q, judge);
      [page] + AllPages(keys, q.(indexOffset := page[|page| - 1]), judge)
  }

  function Flatten(pages: seq<seq<Uint64>>): seq<Uint64> {
    if pages == [] then [] else pages[0] + Flatten(pages[1..])
  }

  /** Pagination is complete and repeats nothing: the pages joined together are exactly
      the unlimited query, for any keys with gaps, any filter and either direction. */
  lemma {:induction false} PagesAreComplete(keys: seq<Uint64>, q: Query, judge: Judge)
    requires Indexable(keys, q.reversed) && q.maxNum > 0
    ensures Flatten(AllPages(keys, q, judge)) == Unlimited(keys, q, judge)
    decreases Remaining(keys, q)
  {
    var page := Limit(Unlimited(keys, q, judge), q.maxNum);
    if |page| < q.maxNum {
      var pages := [page];
      assert pages[1..] == [] && page + [] == page;
    } else {
      NextPage(keys, q, judge);
      var next := q.(indexOffset := page[|page| - 1]);
      PagesAreComplete(keys, next, judge);
      assert ([page] + AllPages(keys, next, judge))[1..] == AllPages(keys, next, judge);
    }
  }

  // ---- Counting all matches ----

  /** The part of a list from a given key on; nothing if the key does not occur. */
  function FromKey(s: seq<Uint64>, k: Uint64): seq<Uint64> {
    if s == [] then [] else if s[0] == k then s else FromKey(s[1..], k)
  }

  function FirstPos(keys: seq<Uint64>, reversed: bool): (i: int)
    ensures OnTrail(keys, i, reversed)
  {
    if reversed then |keys| - 1 else 0
  }

  /** All matches of a filter, in the order of the iteration. */
  function Matches(keys: seq<Uint64>, reversed: bool, judge: Judge): seq<Uint64> {
    ScanFrom(keys, FirstPos(keys, reversed), reversed, judge)
  }

  /** The actions queryCountAll returns before the limit: from offset plus one on. */
  function CountedPage(keys: seq<Uint64>, q: Query, judge: Judge): seq<Uint64> {
    var all := Matches(keys, q.reversed, judge);
    if q.indexOffset == 0 then all else FromKey(all, After(q.indexOffset))
  }

  /** How far the counting query is: what was taken, what is left to look at, and what
      it wants to return in the end. */
  ghost predicate Counting(q: Query, all: seq<Uint64>, want: seq<Uint64>, left: seq<Uint64>, taken: seq<Uint64>,
                           totalCount: nat, before: bool) {
    && |all| == totalCount + |left|
    && want == (if before then FromKey(left, After(q.indexOffset)) else taken + left)
    && (before ==> |taken| == 0 && q.indexOffset != 0)
  }

  lemma CountingAccepts(q: Query, all: seq<Uint64>, want: seq<Uint64>, left: seq<Uint64>, taken: seq<Uint64>,
                        totalCount: nat, before: bool)
    requires Counting(q, all, want, left, taken, totalCount, before) && left != []
    ensures var before' := before && !(q.indexOffset != 0 && left[0] == After(q.indexOffset));
            Counting(q, all, want, left[1..], if before' then taken else taken + [left[0]], totalCount + 1, before')
  {
    TakeHead(taken, left);
    if before && left[0] == After(q.indexOffset) {
      assert want == left && taken + left == left;
    }
  }

  /** The page so far, and the count. */
  datatype Tally = Tally(actions: seq<Uint64>, lastIndex: Uint64, totalCount: nat, beforeIndexOffset: bool)

  ghost predicate InProgress(q: Query, all: seq<Uint64>, want: seq<Uint64>, left: seq<Uint64>, taken: seq<Uint64>, t: Tally) {
    && Counting(q, all, want, left, taken, t.totalCount, t.beforeIndexOffset)
    && t.actions == Limit(taken, q.maxNum) && t.lastIndex == LastOf(t.actions)
  }

  method CountMatch(key: Uint64, q: Query, t: Tally, ghost all: seq<Uint64>, ghost want: seq<Uint64>, ghost left: seq<Uint64>,
                    ghost taken: seq<Uint64>)
    returns (r: Tally, ghost taken': seq<Uint64>)
    requires InProgress(q, all, want, left, taken, t) && left != [] && left[0] == key
    ensures InProgress(q, all, want, left[1..], taken', r)
  {
    CountingAccepts(q, all, want, left, taken, t.totalCount, t.beforeIndexOffset);
    var before := t.beforeIndexOffset;
    if q.indexOffset != 0 && key == After(q.indexOffset) {
      before := false;
    }
    if before {
      return t.(totalCount := t.totalCount + 1), taken;
    }
    var actions, lastIndex := AppendIfRoom(t.actions, t.lastIndex, key, q.maxNum, taken);
    return Tally(actions, lastIndex, t.totalCount + 1, false), taken + [key];
  }

  /** One key of the counting query. */
  method CountOne(keys: seq<Uint64>, i: nat, q: Query, judge: Judge, t: Tally,
                  ghost all: seq<Uint64>, ghost want: seq<Uint64>, ghost left: seq<Uint64>, ghost taken: seq<Uint64>)
    returns (r: Tally, stop: bool, ghost left': seq<Uint64>, ghost taken': seq<Uint64>)
    requires i < |keys| && LeftIs(keys, i, q.reversed, judge, left) && InProgress(q, all, want, left, taken, t)
    ensures InProgress(q, all, want, left', taken', r)
    ensures stop ==> |left'| == 0
    ensures !stop ==> LeftIs(keys, StepFrom(i, q.reversed), q.reversed, judge, left')
  {
    ScanUnfolds(keys, i, q.reversed, judge);
    match judge(keys[i]) {
      case Stop => return t, true, left, taken;
      case Skip => return t, false, left, taken;
      case Accept =>
        r, taken' := CountMatch(keys[i], q, t, all, want, left, taken);
        return r, false, left[1..], taken';
    }
  }

  lemma CountStarts(keys: seq<Uint64>, q: Query, judge: Judge)
    ensures var all := Matches(keys, q.reversed, judge);
            InProgress(q, all, CountedPage(keys, q, judge), all, [], Tally([], 1, 0, q.indexOffset != 0))
  {
    var all := Matches(keys, q.reversed, judge);
    assert [] + all == all;
  }

  /** The loop over the keys that are left. */
  method CountRest(c: Cursor, first: Option<Uint64>, q: Query, judge: Judge, start: Tally,
                   ghost all: seq<Uint64>, ghost want: seq<Uint64>)
    returns (t: Tally, ghost left: seq<Uint64>, ghost taken: seq<Uint64>)
    requires c.Valid() && first == c.Current() && LeftIs(c.keys, c.pos, q.reversed, judge, all)
    requires InProgress(q, all, want, all, [], start)
    modifies c
    ensures InProgress(q, all, want, left, taken, t) && |left| == 0
  {
    var indexKey, stop := first, false;
    t, left, taken := start, all, [];
    while indexKey.Some?
      invariant c.Valid() && indexKey == c.Current() && LeftIs(c.keys, c.pos, q.reversed, judge, left)
      invariant InProgress(q, all, want, left, taken, t)
      decreases if q.reversed then c.pos + 1 else |c.keys| - c.pos
    {
      t, stop, left, taken := CountOne(c.keys, c.pos, q, judge, t, all, want, left, taken);
      if stop {
        return;
      }
      indexKey := c.NextKey(q.reversed);
    }
    ScanEnds(c.keys, c.pos, q.reversed, judge);
  }

  method RunQueryCountAll(c: Cursor, q: Query, judge: Judge)
    returns (actions: seq<Uint64>, lastIndex: Uint64, totalCount: nat)
    requires c.Valid()
    modifies c
    ensures totalCount == |Matches(c.keys, q.reversed, judge)|
    ensures actions == Limit(CountedPage(c.keys, q, judge), q.maxNum)
    ensures lastIndex == LastOf(actions)
  {
    var indexKey := c.First();
    if q.reversed {
      indexKey := c.Last();
    }
    ghost var all, want := Matches(c.keys, q.reversed, judge), CountedPage(c.keys, q, judge);
    CountStarts(c.keys, q, judge);
    var t, left, taken := CountRest(c, indexKey, q, judge, Tally([], 1, 0, q.indexOffset != 0), all, want);
    Tallied(q, all, want, left, taken, t);
    return t.actions, t.lastIndex, t.totalCount;
  }

  lemma Tallied(q: Query, all: seq<Uint64>, want: seq<Uint64>, left: seq<Uint64>, taken: seq<Uint64>, t: Tally)
    requires InProgress(q, all, want, left, taken, t) && |left| == 0
    ensures t.totalCount == |all| && t.actions == Limit(want, q.maxNum) && t.lastIndex == LastOf(t.actions)
  {
    assert taken + left == taken;
  }

  /** Adds a key to the page unless the page is full. */
  method AppendIfRoom(page: seq<Uint64>, last: Uint64, k: Uint64, maxNum: Uint64, ghost taken: seq<Uint64>)
    returns (actions: seq<Uint64>, lastIndex: Uint64)
    requires page == Limit(taken, maxNum) && last == LastOf(page)
    ensures actions == Limit(taken + [k], maxNum) && lastIndex == LastOf(actions)
  {
    LimitAppend(taken, k, maxNum);
    if maxNum != 0 && |page| >= maxNum {
      return page, last;
    }
    return page + [k], k;
  }

  function LastOf(s: seq<Uint64>): Uint64 {
    if |s| == 0 then 1 else s[|s| - 1]
  }

  lemma LimitAppend(s: seq<Uint64>, k: Uint64, maxNum: Uint64)
    ensures Limit(s + [k], maxNum) ==
            if maxNum != 0 && |Limit(s, maxNum)| >= maxNum then Limit(s, maxNum) else Limit(s, maxNum) + [k]
  {
    if maxNum != 0 && |s| >= maxNum {
      assert (s + [k])[..maxNum] == s[..maxNum];
    }
  }

  /** An accepted key with nothing before it that ends the scan. */
  predicate Shown(keys: seq<Uint64>, reversed: bool, judge: Judge, i: int, j: nat)
    requires OnTrail(keys, i, reversed) && j < |keys|
  {
    && (if reversed then j <= i else i <= j)
    && judge(keys[j]) == Accept
    && forall m :: 0 <= m < |keys| && (if reversed then j <= m <= i else i <= m <= j) ==> judge(keys[m]) != Stop
  }

  /** A scan returns exactly the keys that are shown. */
  lemma {:induction false} ScanMembers(keys: seq<Uint64>, i: int, reversed: bool, judge: Judge, j: nat)
    requires Sorted(keys) && OnTrail(keys, i, reversed) && j < |keys|
    ensures keys[j] in ScanFrom(keys, i, reversed, judge) <==> Shown(keys, reversed, judge, i, j)
    decreases if reversed then i + 1 else |keys| - i
  {
    if i != (if reversed then -1 else |keys|) {
      ScanMembers(keys, StepFrom(i, reversed), reversed, judge, j);
    }
  }

  lemma {:induction false} ScanOnlyKeys(keys: seq<Uint64>, i: int, reversed: bool, judge: Judge)
    requires OnTrail(keys, i, reversed)
    ensures forall k :: k in ScanFrom(keys, i, reversed, judge) ==> k in Trail(keys, i, reversed)
    decreases if reversed then i + 1 else |keys| - i
  {
    if i != (if reversed then -1 else |keys|) {
      ScanOnlyKeys(keys, StepFrom(i, reversed), reversed, judge);
    }
  }

  /** Cutting a scan at one of its keys leaves the scan that starts there. */
  lemma {:induction false} FromKeyIsScan(keys: seq<Uint64>, i: int, reversed: bool, judge: Judge, j: nat)
    requires Sorted(keys) && OnTrail(keys, i, reversed) && j < |keys|
    requires keys[j] in ScanFrom(keys, i, reversed, judge)
    ensures FromKey(ScanFrom(keys, i, reversed, judge), keys[j]) == ScanFrom(keys, j, reversed, judge)
    decreases if reversed then i + 1 else |keys| - i
  {
    ScanMembers(keys, i, reversed, judge, j);
    if i != j {
      FromKeyIsScan(keys, StepFrom(i, reversed), reversed, judge, j);
    }
  }

  lemma {:induction false} FromKeyAbsent(s: seq<Uint64>, k: Uint64)
    ensures k in s ==> FromKey(s, k) != [] && FromKey(s, k)[0] == k
    ensures k !in s ==> FromKey(s, k) == []
  {
    if s != [] {
      FromKeyAbsent(s[1..], k);
    }
  }

  lemma KeyOf(keys: seq<Uint64>, reversed: bool, judge: Judge, k: Uint64) returns (j: nat)
    requires k in Matches(keys, reversed, judge)
    ensures j < |keys| && keys[j] == k
  {
    ScanOnlyKeys(keys, FirstPos(keys, reversed), reversed, judge);
    TrailOnlyKeys(keys, FirstPos(keys, reversed), reversed);
    j :| 0 <= j < |keys| && keys[j] == k;
  }

  lemma {:induction false} TrailOnlyKeys(keys: seq<Uint64>, i: int, reversed: bool)
    requires OnTrail(keys, i, reversed)
    ensures forall k :: k in Trail(keys, i, reversed) ==> k in keys
    decreases if reversed then i + 1 else |keys| - i
  {
    if i != (if reversed then -1 else |keys|) {
      TrailOnlyKeys(keys, StepFrom(i, reversed), reversed);
    }
  }

  /** The index right after the offset is itself shown. */
  ghost predicate AfterOffsetShown(keys: seq<Uint64>, q: Query, judge: Judge) {
    exists j :: 0 <= j < |keys| && keys[j] == After(q.indexOffset) &&
                Shown(keys, q.reversed, judge, FirstPos(keys, q.reversed), j)
  }

  /** No key is shown from where the plain query starts. */
  ghost predicate NothingBeyond(keys: seq<Uint64>, q: Query, judge: Judge) {
    forall j :: 0 <= j < |keys| ==> !Shown(keys, q.reversed, judge, StartOf(keys, q), j)
  }

  lemma AfterOffsetMatches(keys: seq<Uint64>, q: Query, judge: Judge)
    requires Sorted(keys)
    ensures AfterOffsetShown(keys, q, judge) <==> After(q.indexOffset) in Matches(keys, q.reversed, judge)
  {
    var k, first := After(q.indexOffset), FirstPos(keys, q.reversed);
    if k in Matches(keys, q.reversed, judge) {
      var j := KeyOf(keys, q.reversed, judge, k);
      ScanMembers(keys, first, q.reversed, judge, j);
    }
    if AfterOffsetShown(keys, q, judge) {
      var j :| 0 <= j < |keys| && keys[j] == k && Shown(keys, q.reversed, judge, first, j);
      ScanMembers(keys, first, q.reversed, judge, j);
    }
  }

  lemma NothingBeyondIsEmpty(keys: seq<Uint64>, q: Query, judge: Judge)
    requires Sorted(keys)
    ensures NothingBeyond(keys, q, judge) <==> Unlimited(keys, q, judge) == []
  {
    var start, all := StartOf(keys, q), Unlimited(keys, q, judge);
    if all != [] {
      ScanOnlyKeys(keys, start, q.reversed, judge);
      TrailOnlyKeys(keys, start, q.reversed);
      assert all[0] in all && all[0] in keys;
      var j: nat :| j < |keys| && keys[j] == all[0];
      ScanMembers(keys, start, q.reversed, judge, j);
    } else {
      forall j | 0 <= j < |keys| ensures !Shown(keys, q.reversed, judge, start, j) {
        ScanMembers(keys, start, q.reversed, judge, j);
      }
    }
  }

  /** Forward, the counting query returns the page of the plain query if and only if
      there is no offset, the index right after the offset is itself one of the keys
      shown, or nothing is shown beyond the offset. Otherwise it returns nothing. */
  lemma CountedForward(keys: seq<Uint64>, q: Query, judge: Judge)
    requires Sorted(keys) && !q.reversed
    ensures Limit(CountedPage(keys, q, judge), q.maxNum) == Limit(Unlimited(keys, q, judge), q.maxNum) <==>
            q.indexOffset == 0 || AfterOffsetShown(keys, q, judge) || NothingBeyond(keys, q, judge)
  {
    var all, k := Matches(keys, false, judge), After(q.indexOffset);
    AfterOffsetMatches(keys, q, judge);
    NothingBeyondIsEmpty(keys, q, judge);
    FromKeyAbsent(all, k);
    if q.indexOffset == 0 {
      FirstAtLeastUnique(keys, 1, 0);
    } else if k in all {
      var j := KeyOf(keys, false, judge, k);
      FromKeyIsScan(keys, 0, false, judge, j);
      FirstAtLeastUnique(keys, k, j);
    }
  }

  /** In reverse with an offset the two forms agree only when both find nothing: the
      counting query starts at the index above the offset, the plain query below it. */
  lemma CountedReverse(keys: seq<Uint64>, q: Query, judge: Judge)
    requires Sorted(keys) && q.reversed
    ensures Limit(CountedPage(keys, q, judge), q.maxNum) == Limit(Unlimited(keys, q, judge), q.maxNum) <==>
            q.indexOffset == 0 || (!AfterOffsetShown(keys, q, judge) && NothingBeyond(keys, q, judge))
  {
    var all, k := Matches(keys, true, judge), After(q.indexOffset);
    AfterOffsetMatches(keys, q, judge);
    NothingBeyondIsEmpty(keys, q, judge);
    FromKeyAbsent(all, k);
    if q.indexOffset != 0 && k in all && Unlimited(keys, q, judge) != [] {
      FirstBelow(keys, q, judge);
    }
  }

  lemma FirstBelow(keys: seq<Uint64>, q: Query, judge: Judge)
    requires Sorted(keys) && q.reversed && q.indexOffset != 0 && Unlimited(keys, q, judge) != []
    ensures Unlimited(keys, q, judge)[0] < q.indexOffset
  {
    var rest := Unlimited(keys, q, judge);
    ScanOnlyKeys(keys, StartOf(keys, q), true, judge);
    TrailOnlyKeys(keys, StartOf(keys, q), true);
    assert rest[0] in rest && rest[0] in keys;
    var i: nat :| i < |keys| && keys[i] == rest[0];
    StartsBeyondOffset(keys, q, i);
  }
}
