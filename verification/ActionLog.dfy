/** The action log of the firewall: actions stored per macaroon, a global index of
    them, and the logger that moves every action out of its initial state. */
module ActionLog {
  import opened AccountTypes
  import opened Pagination

  type SessionID = i: nat | i < TWO_32

  const UNSET: Byte := 0
  const INIT: Byte := 1
  const DONE: Byte := 2
  const ERROR: Byte := 3

  datatype Request = Request(
    rootKeyID: Option<Uint64>,
    sessionID: Option<SessionID>,
    accountID: Option<AccountID>,
    details: Details)

  datatype Details = Details(actor: string, feature: string, rpcMethod: string, params: seq<Byte>)

  /** What is stored of an action. Times are in whole seconds. */
  datatype Action = Action(details: Details, attemptedAt: int, state: Byte, errorReason: string)

  /** What an empty record decodes to. */
  const BLANK := Action(Details("", "", "", []), 0, UNSET, "")

  datatype Locator = Locator(session: SessionID, id: Uint64)

  datatype Bucket = Bucket(sequence: Uint64, actions: map<Uint64, Action>)

  datatype Log = Log(buckets: map<SessionID, Bucket>, index: map<Uint64, Locator>, sequence: Uint64)

  const EMPTY_LOG := Log(map[], map[], 0)

  function MacaroonID(rootKeyID: Option<Uint64>): SessionID {
    if rootKeyID.None? then 0 else rootKeyID.value % TWO_32
  }

  function BucketOf(log: Log, id: SessionID): Bucket {
    if id in log.buckets then log.buckets[id] else Bucket(0, map[])
  }

  function Stored(log: Log, at: Locator): Option<Action> {
    var actions := BucketOf(log, at.session).actions;
    if at.id in actions then Some(actions[at.id]) else None
  }

  function PutAction(log: Log, at: Locator, a: Action): Log
    requires at.session in log.buckets
  {
    var b := log.buckets[at.session];
    log.(buckets := log.buckets[at.session := b.(actions := b.actions[at.id := a])])
  }

  function NewLocator(log: Log, req: Request): Locator {
    var id := MacaroonID(req.rootKeyID);
    Locator(id, After(BucketOf(log, id).sequence))
  }

  /** The log after an action was added. */
  function Added(log: Log, req: Request, now: int): Log {
    var at := NewLocator(log, req);
    var b := BucketOf(log, at.session);
    var a := Action(req.details, now, INIT, "");
    var seqNo := After(log.sequence);
    Log(log.buckets[at.session := Bucket(at.id, b.actions[at.id := a])], log.index[seqNo := at], seqNo)
  }

  /** The log after a change of state, or nothing if it is refused. An id that is
      missing from an existing bucket reads as a blank record, which is then written. */
  function StateSet(log: Log, at: Locator, state: Byte, reason: string): Option<Log> {
    if (reason != "" && state != ERROR) || at.session !in log.buckets then None
    else
      var a := if Stored(log, at).Some? then Stored(log, at).value else BLANK;
      Some(PutAction(log, at, a.(state := state, errorReason := reason)))
  }

  // ---- What every log satisfies ----

  /** Every sequence number handed out is in use, and no other. */
  ghost predicate Numbered(log: Log) {
    && (forall k: Uint64 :: k in log.index <==> 1 <= k <= log.sequence)
    && (forall s, k: Uint64 :: s in log.buckets ==> (k in log.buckets[s].actions <==> 1 <= k <= log.buckets[s].sequence))
  }

  /** Every index entry leads to an action, no two to the same one. */
  ghost predicate Located(log: Log) {
    && (forall k :: k in log.index ==> Stored(log, log.index[k]).Some?)
    && (forall i, j :: i in log.index && j in log.index && i < j ==> Precedes(log.index[i], log.index[j]))
  }

  ghost predicate Covered(log: Log) {
    forall at: Locator :: Stored(log, at).Some? ==> exists k :: k in log.index && log.index[k] == at
  }

  /** The index is a bijection between the sequence numbers handed out so far and the
      stored actions, and it lists the actions of one session in the order of their ids. */
  ghost predicate Indexed(log: Log) {
    Numbered(log) && Located(log) && Covered(log)
  }

  /** Different actions, and of one session the one with the smaller id comes first. */
  predicate Precedes(a: Locator, b: Locator) {
    a.session != b.session || a.id < b.id
  }

  /** No bucket handed out more than n sequence numbers. */
  predicate AtMost(log: Log, n: nat) {
    log.sequence <= n && forall s :: s in log.buckets ==> log.buckets[s].sequence <= n
  }

  lemma AddedStores(log: Log, req: Request, now: int, n: nat)
    requires Numbered(log) && AtMost(log, n) && n < MAX_UINT64
    ensures Numbered(Added(log, req, now)) && AtMost(Added(log, req, now), n + 1)
    ensures Stored(log, NewLocator(log, req)).None?
    ensures Stored(Added(log, req, now), NewLocator(log, req)) == Some(Action(req.details, now, INIT, ""))
    ensures forall at :: at != NewLocator(log, req) ==> Stored(Added(log, req, now), at) == Stored(log, at)
    ensures forall i :: i in log.index ==> i <= log.sequence && Added(log, req, now).index[i] == log.index[i]
  {
  }

  lemma AddedKeepsCovered(log: Log, req: Request, now: int, n: nat)
    requires Numbered(log) && Covered(log) && AtMost(log, n) && n < MAX_UINT64
    ensures Covered(Added(log, req, now))
  {
    var log', at, k := Added(log, req, now), NewLocator(log, req), log.sequence + 1;
    AddedStores(log, req, now, n);
    forall x: Locator | Stored(log', x).Some? ensures exists i :: i in log'.index && log'.index[i] == x {
      if x == at {
        assert log'.index[k] == at;
      } else {
        assert Stored(log, x).Some?;
        var i :| i in log.index && log.index[i] == x;
        assert log'.index[i] == x;
      }
    }
  }

  lemma AddedKeepsLocated(log: Log, req: Request, now: int, n: nat)
    requires Numbered(log) && Located(log) && AtMost(log, n) && n < MAX_UINT64
    ensures Located(Added(log, req, now))
  {
    var log', at, k := Added(log, req, now), NewLocator(log, req), log.sequence + 1;
    AddedStores(log, req, now, n);
    assert log'.index == log.index[k := at];
    forall i, j | i in log'.index && j in log'.index && i < j ensures Precedes(log'.index[i], log'.index[j]) {
      assert i in log.index;
      if j == k {
        assert Stored(log, log.index[i]).Some?;
      }
    }
  }

  /** Adding an action keeps the index a bijection. */
  lemma AddedKeepsIndexed(log: Log, req: Request, now: int, n: nat)
    requires Indexed(log) && AtMost(log, n) && n < MAX_UINT64
    ensures Indexed(Added(log, req, now))
  {
    AddedStores(log, req, now, n);
    AddedKeepsLocated(log, req, now, n);
    AddedKeepsCovered(log, req, now, n);
  }

  /** Changing the state of a stored action keeps the index and touches nothing else. */
  lemma StateSetKeepsIndexed(log: Log, at: Locator, state: Byte, reason: string, n: nat)
    requires Indexed(log) && AtMost(log, n) && Stored(log, at).Some?
    ensures var r := StateSet(log, at, state, reason);
            r.Some? ==>
              && Indexed(r.value) && AtMost(r.value, n) && r.value.index == log.index
              && Stored(r.value, at) == Some(Stored(log, at).value.(state := state, errorReason := reason))
              && forall x :: x != at ==> Stored(r.value, x) == Stored(log, x)
  {
    var r := StateSet(log, at, state, reason);
    if r.Some? {
      assert forall x :: Stored(r.value, x).Some? <==> Stored(log, x).Some?;
    }
  }
}
