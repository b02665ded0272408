/** The request logger over all its runs: requests add actions, responses and rule
    violations mark them, and the process may restart in between. */
module RequestLogger {
  import opened AccountTypes
  import opened Pagination
  import opened ActionLog

  /** The log, the locators by request id, and the locators of actions that were added
      but are not yet entered in that map: the two happen in separate steps. */
  datatype World = World(log: Log, live: map<Uint64, Locator>, held: set<Locator>)

  datatype Event =
    | Add(req: Request, now: int, stored: bool)
    | Register(reqID: Uint64, at: Locator)
    | Mark(reqID: Uint64, state: Byte, reason: string, written: bool)
    | Restart

  const INITIAL := World(EMPTY_LOG, map[], {})

  predicate Enabled(w: World, e: Event) {
    e.Register? ==> e.at in w.held
  }

  function Next(w: World, e: Event): World
    requires Enabled(w, e)
  {
    match e
    case Add(req, now, stored) =>
      if stored then w.(log := Added(w.log, req, now), held := w.held + {NewLocator(w.log, req)}) else w
    case Register(reqID, at) => w.(live := w.live[reqID := at], held := w.held - {at})
    case Mark(reqID, state, reason, written) =>
      if reqID !in w.live then w
      else
        var r := StateSet(w.log, w.live[reqID], state, reason);
        w.(live := w.live - {reqID}, log := if written && r.Some? then r.value else w.log)
    case Restart => w.(live := map[], held := {})
  }

  predicate IsRun(w: World, es: seq<Event>)
    decreases |es|
  {
    es == [] || (Enabled(w, es[0]) && IsRun(Next(w, es[0]), es[1..]))
  }

  function Final(w: World, es: seq<Event>): World
    requires IsRun(w, es)
    decreases |es|
  {
    if es == [] then w else Final(Next(w, es[0]), es[1..])
  }

  /** An action that the logger may still mark. */
  predicate Open(w: World, at: Locator) {
    at in w.live.Values || at in w.held
  }

  /** Live locators are pairwise distinct and lead to actions in their initial state. */
  ghost predicate Inv(w: World, n: nat) {
    && Indexed(w.log) && AtMost(w.log, n)
    && (forall i, j :: i in w.live && j in w.live && i != j ==> w.live[i] != w.live[j])
    && (forall i :: i in w.live ==> w.live[i] !in w.held)
    && (forall at :: Open(w, at) ==> InState(w.log, at, INIT))
  }

  predicate InState(log: Log, at: Locator, state: Byte) {
    Stored(log, at).Some? && Stored(log, at).value.state == state
  }

  lemma AddKeepsInv(w: World, e: Event, n: nat)
    requires Inv(w, n) && n < MAX_UINT64 && e.Add?
    ensures Inv(Next(w, e), n + 1)
    ensures forall at :: Stored(w.log, at).Some? ==> Stored(Next(w, e).log, at) == Stored(w.log, at)
  {
    if e.stored {
      AddedStores(w.log, e.req, e.now, n);
      AddedKeepsIndexed(w.log, e.req, e.now, n);
      forall at | Open(Next(w, e), at) ensures InState(Next(w, e).log, at, INIT) {
        assert at == NewLocator(w.log, e.req) || Open(w, at);
      }
      forall i | i in w.live ensures w.live[i] != NewLocator(w.log, e.req) {
        assert Open(w, w.live[i]);
      }
    }
  }

  lemma MarkKeepsInv(w: World, e: Event, n: nat)
    requires Inv(w, n) && e.Mark?
    ensures Inv(Next(w, e), n)
    ensures forall at :: !Open(w, at) ==> Stored(Next(w, e).log, at) == Stored(w.log, at)
  {
    if e.reqID in w.live {
      var at := w.live[e.reqID];
      assert Open(w, at);
      StateSetKeepsIndexed(w.log, at, e.state, e.reason, n);
      forall x | Open(Next(w, e), x) ensures InState(Next(w, e).log, x, INIT) {
        assert Open(w, x) && x != at;
      }
    }
  }

  /** Every step keeps the invariant, and an action that is not open is left alone and
      is never opened again. */
  lemma StepKeeps(w: World, e: Event, n: nat)
    requires Inv(w, n) && n < MAX_UINT64 && Enabled(w, e)
    ensures Inv(Next(w, e), n + 1)
    ensures forall at :: Stored(w.log, at).Some? && !Open(w, at) ==>
              Stored(Next(w, e).log, at) == Stored(w.log, at) && !Open(Next(w, e), at)
  {
    match e
    case Add(_, _, _) =>
      AddKeepsInv(w, e, n);
      AddedStores(w.log, e.req, e.now, n);
    case Mark(_, _, _, _) => MarkKeepsInv(w, e, n);
    case Register(_, _) =>
    case Restart =>
  }

  /** In every reachable state the index is a bijection and the live locators are
      distinct and initial; 2^64 events would be needed to exhaust the sequence. */
  lemma {:induction false} RunKeeps(w: World, es: seq<Event>, n: nat)
    requires Inv(w, n) && IsRun(w, es) && n + |es| < TWO_64
    ensures Inv(Final(w, es), n + |es|)
    ensures forall at :: Stored(w.log, at).Some? && !Open(w, at) ==> Stored(Final(w, es).log, at) == Stored(w.log, at)
    decreases |es|
  {
    if es != [] {
      StepKeeps(w, es[0], n);
      RunKeeps(Next(w, es[0]), es[1..], n + 1);
    }
  }

  lemma {:induction false} Split(w: World, es: seq<Event>, more: seq<Event>)
    requires IsRun(w, es + more)
    ensures IsRun(w, es) && IsRun(Final(w, es), more) && Final(w, es + more) == Final(Final(w, es), more)
    decreases |es|
  {
    if es == [] {
      assert es + more == more;
    } else {
      assert (es + more)[1..] == es[1..] + more;
      Split(Next(w, es[0]), es[1..], more);
    }
  }

  /** An action that left its initial state is never changed again: not by repeated
      marks, reused request ids, failures or restarts. */
  lemma FinalStateStays(es: seq<Event>, more: seq<Event>, at: Locator)
    requires IsRun(INITIAL, es + more) && |es + more| < TWO_64
    ensures IsRun(INITIAL, es)
    ensures var before, after := Stored(Final(INITIAL, es).log, at), Stored(Final(INITIAL, es + more).log, at);
            before.Some? && before.value.state != INIT ==> after == before
  {
    Split(INITIAL, es, more);
    RunKeeps(INITIAL, es, 0);
    RunKeeps(Final(INITIAL, es), more, |es|);
  }

  /** A request id that is used again before its response orphans the earlier action,
      which stays in its initial state for good. */
  lemma ReusedIdOrphans(w: World, reqID: Uint64, at: Locator, more: seq<Event>, n: nat)
    requires Inv(w, n) && reqID in w.live && at in w.held
    requires IsRun(Next(w, Register(reqID, at)), more) && n + 1 + |more| < TWO_64
    ensures Stored(Final(Next(w, Register(reqID, at)), more).log, w.live[reqID]) == Stored(w.log, w.live[reqID])
    ensures InState(w.log, w.live[reqID], INIT)
  {
    var e := Register(reqID, at);
    StepKeeps(w, e, n);
    assert Open(w, w.live[reqID]) && !Open(Next(w, e), w.live[reqID]);
    RunKeeps(Next(w, e), more, n + 1);
  }

  // ---- The implementation ----

  class ActionDB {
    var log: Log

    constructor ()
      ensures log == EMPTY_LOG
    {
      log := EMPTY_LOG;
    }

    /** Adds an action in its initial state. The session and the account that it names
        must exist, and a failed transaction leaves everything as it was. */
    method AddAction(req: Request, sessions: set<SessionID>, accounts: set<AccountID>, now: int, commits: bool)
      returns (r: Option<Locator>)
      modifies this
      ensures r.Some? <==>
                && commits
                && (req.sessionID.Some? ==> req.sessionID.value in sessions)
                && (req.accountID.Some? ==> req.accountID.value in accounts)
      ensures r.Some? ==> r.value == NewLocator(old(log), req) && log == Added(old(log), req, now)
      ensures r.None? ==> log == old(log)
    {
      if req.sessionID.Some? && req.sessionID.value !in sessions {
        return None;
      }
      if req.accountID.Some? && req.accountID.value !in accounts {
        return None;
      }
      if !commits {
        return None;
      }
      var macaroonID := MacaroonID(req.rootKeyID);
      var bucket := BucketOf(log, macaroonID);
      var actionIndex := After(bucket.sequence);
      var action := Action(req.details, now, INIT, "");
      bucket := Bucket(actionIndex, bucket.actions[actionIndex := action]);
      var locator := Locator(macaroonID, actionIndex);
      var nextSeq := After(log.sequence);
      log := Log(log.buckets[macaroonID := bucket], log.index[nextSeq := locator], nextSeq);
      return Some(locator);
    }

    method SetActionState(at: Locator, state: Byte, reason: string, commits: bool) returns (ok: bool)
      modifies this
      ensures ok <==> commits && StateSet(old(log), at, state, reason).Some?
      ensures log == if ok then StateSet(old(log), at, state, reason).value else old(log)
    {
      if (reason != "" && state != ERROR) || at.session !in log.buckets || !commits {
        return false;
      }
      var action := Stored(log, at);
      var a := if action.Some? then action.value else BLANK;
      log := PutAction(log, at, a.(state := state, errorReason := reason));
      return true;
    }
  }

  class Logger {
    const db: ActionDB
    var reqIDToAction: map<Uint64, Locator>

    ghost function View(held: set<Locator>): World
      reads this, db
    {
      World(db.log, reqIDToAction, held)
    }

    constructor (actions: ActionDB)
      ensures db == actions && reqIDToAction == map[]
    {
      db, reqIDToAction := actions, map[];
    }

    /** Adding an action and entering it is the two steps of the protocol in a row. */
    method AddNewAction(reqID: Uint64, req: Request, sessions: set<SessionID>, accounts: set<AccountID>,
                        now: int, commits: bool, ghost held: set<Locator>)
      returns (ok: bool)
      modifies this, db
      ensures ok ==>
                var added := Next(old(View(held)), Add(req, now, true));
                Enabled(added, Register(reqID, NewLocator(old(db.log), req))) &&
                View(held - {NewLocator(old(db.log), req)}) == Next(added, Register(reqID, NewLocator(old(db.log), req)))
      ensures !ok ==> View(held) == old(View(held))
    {
      var locator := db.AddAction(req, sessions, accounts, now, commits);
      if locator.None? {
        return false;
      }
      reqIDToAction := reqIDToAction[reqID := locator.value];
      return true;
    }

    /** Marking takes the locator out of the map whether or not the write succeeds. */
    method MarkAction(reqID: Uint64, state: Byte, reason: string, commits: bool, ghost held: set<Locator>)
      returns (ok: bool)
      modifies this, db
      ensures View(held) == Next(old(View(held)), Mark(reqID, state, reason, commits))
      ensures ok <==> reqID in old(reqIDToAction) ==>
                commits && StateSet(old(db.log), old(reqIDToAction)[reqID], state, reason).Some?
    {
      if reqID !in reqIDToAction {
        return true;
      }
      var locator := reqIDToAction[reqID];
      reqIDToAction := reqIDToAction - {reqID};
      ok := db.SetActionState(locator, state, reason, commits);
    }
  }
}
