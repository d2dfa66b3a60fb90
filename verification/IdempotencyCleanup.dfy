/**
 When removing an expired row can be noticed.

 A cleanup purges keys one after another, at any time, between the statements of any number
 of requests.  From the state with the row and the state without it, the same continuations
 have to be possible up to steps that nobody is told about.
 */
module IdempotencyCleanup {
  import opened Wrappers
  import opened Idempotency

  lemma {:induction false} InvSteps(z: bool, s: State, events: seq<Event>)
    requires Inv(s)
    ensures Inv(Steps(z, s, events))
    decreases |events|
  {
    if events != [] {
      StepKeepsInv(z, s, events[0]);
      InvSteps(z, Next(z, s, events[0]), events[1..]);
    }
  }

  /** Row identities are fresh, and only the owner of a reservation works. */
  predicate FreshRows(s: State) {
    && (forall key | key in s.committed :: s.committed[key].id < s.nextId)
    && (forall t | t in s.open :: FreshTx(s.open[t], s.nextId))
  }

  predicate FreshTx(tx: Tx, nextId: nat) {
    && (tx.overlay.Inserted? ==> tx.overlay.row.id < nextId)
    && (tx.phase.Working? || tx.phase.Completed? ==> tx.overlay.Inserted?)
  }

  lemma FreshStep(z: bool, s: State, e: Event)
    requires FreshRows(s)
    ensures FreshRows(Next(z, s, e))
  {
    var s' := Next(z, s, e);
    forall t | t in s'.open
      ensures FreshTx(s'.open[t], s'.nextId)
    {
      assert t in s.open ==> FreshTx(s.open[t], s.nextId);
    }
    if e.Commit? && e.t in s.open {
      assert FreshTx(s.open[e.t], s.nextId);
    }
  }

  lemma {:induction false} FreshReachable(z: bool, events: seq<Event>)
    ensures FreshRows(Run(z, events))
  {
    if events != [] {
      var init := events[..|events| - 1];
      FreshReachable(z, init);
      Reachable(z, init);
      FreshStep(z, Run(z, init), events[|events| - 1]);
    }
  }

  // ---------------------------------------------------------------------------------
  // The state with the row and the state without it
  // ---------------------------------------------------------------------------------

  /** The same place in the same request; a reservation of its own is newer than the row. */
  predicate Alike(a: Tx, b: Tx, r: Row) {
    a == b && (a.overlay.Inserted? ==> a.overlay.row.id > r.id)
  }

  /** Where the row is, the request has yet to find out that it is expired, or to delete it. */
  predicate Lagging(a: Tx, b: Tx, r: Row) {
    a.overlay.Untouched? && b == a.(phase := Inserting) && (a.phase.Finding? || a.phase == Deleting(r))
  }

  /** Where the row is, the request has deleted it already. */
  predicate Ahead(a: Tx, b: Tx) {
    a.overlay.Deleted? && a.phase.Inserting? && b == a.(overlay := Untouched)
  }

  predicate TxRel(differ: bool, key: Key, r: Row, a: Tx, b: Tx) {
    if a.key != key then a == b
    else
      && b.key == key && r.expiresAt <= a.now
      && ((Alike(a, b, r) && (differ ==> !a.overlay.Deleted?)) || Lagging(a, b, r) || (differ && Ahead(a, b)))
  }

  /** The tables differ in the row only, or, later, not at all. */
  predicate TablesRel(differ: bool, s: State, p: State, key: Key, r: Row) {
    if differ then key !in p.committed && s.committed == p.committed[key := r]
    else s.committed == p.committed && (key in p.committed ==> p.committed[key].id > r.id)
  }

  predicate Rel(differ: bool, s: State, p: State, key: Key, r: Row) {
    && s.clock == p.clock && s.nextId == p.nextId && s.answers == p.answers
    && r.id < s.nextId && r.expiresAt < s.clock
    && TablesRel(differ, s, p, key, r)
    && s.open.Keys == p.open.Keys
    && forall t | t in s.open :: TxRel(differ, key, r, s.open[t], p.open[t])
  }

  predicate NoneAhead(s: State, p: State) {
    s.open.Keys == p.open.Keys && forall t | t in s.open :: s.open[t].overlay == p.open[t].overlay
  }

  /** Once a row is there again, nobody who lags is looking for it. */
  predicate NoneLost(s: State, p: State, key: Key) {
    && s.open.Keys == p.open.Keys
    && (key in p.committed ==>
          forall t | t in s.open && s.open[t].key == key && s.open[t].phase.Finding? :: p.open[t].phase.Finding?)
  }

  ghost predicate Both(s: State, p: State) {
    Inv(s) && Inv(p)
  }

  /** What a step of one request needs of the invariant. */
  predicate Local(s: State, t: TxId)
    requires t in s.open
  {
    TxOk(s, s.open[t]) && (!s.open[t].overlay.Untouched? ==> OthersUntouched(s, t, s.open[t].key))
  }

  lemma LocalOf(s: State, t: TxId)
    requires Inv(s) && t in s.open
    ensures Local(s, t)
  {
  }

  function Put(s: State, t: TxId, tx: Tx): State {
    s.(open := s.open[t := tx])
  }

  lemma PutRel(differ: bool, s: State, p: State, key: Key, r: Row, t: TxId, a: Tx, b: Tx)
    requires Rel(differ, s, p, key, r) && TxRel(differ, key, r, a, b)
    ensures Rel(differ, Put(s, t, a), Put(p, t, b), key, r)
    ensures NoneAhead(s, p) && a.overlay == b.overlay ==> NoneAhead(Put(s, t, a), Put(p, t, b))
    ensures NoneLost(s, p, key) && (a.key == key && a.phase.Finding? && key in p.committed ==> b.phase.Finding?) ==>
              NoneLost(Put(s, t, a), Put(p, t, b), key)
  {
  }

  lemma SameBlocked(s: State, p: State, t: TxId, key: Key)
    requires NoneAhead(s, p) && forall u | u in s.open :: s.open[u].key == p.open[u].key
    ensures Blocked(s, t, key) <==> Blocked(p, t, key)
    ensures Touched(s, key) <==> Touched(p, key)
  {
    if u :| u in s.open && u != t && s.open[u].key == key && !s.open[u].overlay.Untouched? {
      assert p.open[u].key == key && !p.open[u].overlay.Untouched?;
    }
    if u :| u in p.open && u != t && p.open[u].key == key && !p.open[u].overlay.Untouched? {
      assert s.open[u].key == key && !s.open[u].overlay.Untouched?;
    }
    if u :| u in s.open && s.open[u].key == key && !s.open[u].overlay.Untouched? {
      assert p.open[u].key == key && !p.open[u].overlay.Untouched?;
    }
    if u :| u in p.open && p.open[u].key == key && !p.open[u].overlay.Untouched? {
      assert s.open[u].key == key && !s.open[u].overlay.Untouched?;
    }
  }

  /** Of other keys both states know the same. */
  lemma SameElsewhere(differ: bool, s: State, p: State, key: Key, r: Row, t: TxId, other: Key)
    requires Rel(differ, s, p, key, r) && other != key
    ensures Blocked(s, t, other) <==> Blocked(p, t, other)
    ensures Touched(s, other) <==> Touched(p, other)
    ensures Get(s.committed, other) == Get(p.committed, other)
  {
    forall u | u in s.open
      ensures s.open[u].key == other <==> p.open[u].key == other
      ensures s.open[u].key == other ==> s.open[u] == p.open[u]
    {
      assert TxRel(differ, key, r, s.open[u], p.open[u]);
    }
    if u :| u in s.open && u != t && s.open[u].key == other && !s.open[u].overlay.Untouched? {
      assert p.open[u].key == other && !p.open[u].overlay.Untouched?;
    }
    if u :| u in p.open && u != t && p.open[u].key == other && !p.open[u].overlay.Untouched? {
      assert s.open[u].key == other && !s.open[u].overlay.Untouched?;
    }
    if u :| u in s.open && s.open[u].key == other && !s.open[u].overlay.Untouched? {
      assert p.open[u].key == other && !p.open[u].overlay.Untouched?;
    }
    if u :| u in p.open && p.open[u].key == other && !p.open[u].overlay.Untouched? {
      assert s.open[u].key == other && !s.open[u].overlay.Untouched?;
    }
  }

  predicate OfTx(e: Event) {
    e.Insert? || e.Find? || e.Delete? || e.Work? || e.Commit?
  }

  // ---------------------------------------------------------------------------------
  // Steps that are the same in both
  // ---------------------------------------------------------------------------------

  function Closed(s: State, t: TxId, told: seq<Answer>): State {
    s.(open := s.open - {t}, answers := s.answers + told)
  }

  lemma CloseRel(differ: bool, s: State, p: State, key: Key, r: Row, t: TxId, told: seq<Answer>)
    requires Rel(differ, s, p, key, r)
    ensures Rel(differ, Closed(s, t, told), Closed(p, t, told), key, r)
    ensures NoneAhead(s, p) ==> NoneAhead(Closed(s, t, told), Closed(p, t, told))
    ensures NoneLost(s, p, key) ==> NoneLost(Closed(s, t, told), Closed(p, t, told), key)
  {
    forall u | u in s.open && u != t
      ensures TxRel(differ, key, r, s.open[u], p.open[u])
    {
    }
  }

  function Stored(s: State, k: Key, row: Row): State {
    s.(committed := s.committed[k := row])
  }

  lemma StoreElsewhere(differ: bool, s: State, p: State, key: Key, r: Row, k: Key, row: Row)
    requires Rel(differ, s, p, key, r) && k != key
    ensures Rel(differ, Stored(s, k, row), Stored(p, k, row), key, r)
    ensures NoneAhead(s, p) ==> NoneAhead(Stored(s, k, row), Stored(p, k, row))
    ensures NoneLost(s, p, key) ==> NoneLost(Stored(s, k, row), Stored(p, k, row), key)
  {
  }

  function Numbered(s: State): State {
    s.(nextId := s.nextId + 1)
  }

  lemma NumberRel(differ: bool, s: State, p: State, key: Key, r: Row)
    requires Rel(differ, s, p, key, r)
    ensures Rel(differ, Numbered(s), Numbered(p), key, r)
    ensures NoneAhead(s, p) ==> NoneAhead(Numbered(s), Numbered(p))
    ensures NoneLost(s, p, key) ==> NoneLost(Numbered(s), Numbered(p), key)
  {
  }

  /** What a step of one request does, told apart from where the request is. */
  datatype Move = Stay | Go(tx: Tx) | Take(tx: Tx) | Tell(answer: Answer) | Store(row: Row, answer: Answer)

  function Moved(s: State, t: TxId, m: Move): State
    requires t in s.open
  {
    match m
    case Stay => s
    case Go(tx) => Put(s, t, tx)
    case Take(tx) => Numbered(Put(s, t, tx))
    case Tell(answer) => Closed(s, t, [answer])
    case Store(row, answer) => Closed(Stored(s, s.open[t].key, row), t, [answer])
  }

  /** It depends on the row of its key, on who else is at it, on the clock and the next id. */
  function MoveOf(z: bool, e: Event, tx: Tx, there: Option<Row>, blocked: bool, clock: int, nextId: nat): Move {
    var view := match tx.overlay
      case Untouched => there
      case Deleted => None
      case Inserted(row) => Some(row);
    match e
    case Insert(_) =>
      if !tx.phase.Inserting? || blocked then Stay
      else if view.None? then
        Take(tx.(overlay := Inserted(Row(nextId, tx.hash, PENDING, PENDING_BODY, tx.expiresAt)), phase := Working))
      else Go(tx.(phase := Finding))
    case Find(_) =>
      if !tx.phase.Finding? then Stay
      else if view.None? then Go(tx.(phase := Inserting))
      else if view.value.expiresAt <= tx.now then Go(tx.(phase := Deleting(view.value)))
      else
        var kind := if view.value.hash != tx.hash then Mismatch
                    else if view.value.status == PENDING then Conflict else Replayed;
        Tell(Answer(kind, tx.key, tx.hash, view.value.status, view.value.body, view.value.expiresAt, clock))
    case Delete(_) =>
      if !tx.phase.Deleting? then Stay
      else if there != Some(tx.phase.row) then Go(tx.(phase := Inserting))
      else if blocked then Stay
      else Go(tx.(overlay := Deleted, phase := Inserting))
    case Work(_, status, body) =>
      if !tx.phase.Working? || !tx.overlay.Inserted? || (status == PENDING && !z) then Stay
      else Go(tx.(overlay := Inserted(tx.overlay.row.(status := status, body := body)), phase := Completed))
    case Commit(_) =>
      if !tx.phase.Completed? || !tx.overlay.Inserted? then Stay
      else
        var row := tx.overlay.row;
        Store(row, Answer(Executed, tx.key, tx.hash, row.status, row.body, row.expiresAt, clock))
    case _ => Stay
  }

  function MoveAt(z: bool, s: State, e: Event): Move
    requires OfTx(e) && e.t in s.open
  {
    var tx := s.open[e.t];
    MoveOf(z, e, tx, Get(s.committed, tx.key), Blocked(s, e.t, tx.key), s.clock, s.nextId)
  }

  /** Every step of a request is such a move. */
  lemma NextIsMove(z: bool, s: State, e: Event)
    requires OfTx(e) && e.t in s.open
    ensures Next(z, s, e) == Moved(s, e.t, MoveAt(z, s, e))
  {
    var tx := s.open[e.t];
    assert s.open[e.t := tx] == s.open;
    match e {
      case Insert(t) =>
      case Find(t) =>
      case Delete(t) =>
      case Work(t, status, body) =>
      case Commit(t) =>
        assert Commitment(s, t, tx) == Moved(s, t, MoveAt(z, s, e));
    }
  }

  predicate KeepsKey(m: Move, key: Key) {
    (m.Go? ==> m.tx.key == key) && (m.Take? ==> m.tx.key == key)
  }

  /** The same move of a request for another key. */
  lemma MoveElsewhere(differ: bool, s: State, p: State, key: Key, r: Row, t: TxId, m: Move)
    requires Rel(differ, s, p, key, r) && t in s.open && s.open[t].key != key && KeepsKey(m, s.open[t].key)
    ensures Rel(differ, Moved(s, t, m), Moved(p, t, m), key, r)
    ensures NoneAhead(s, p) ==> NoneAhead(Moved(s, t, m), Moved(p, t, m))
    ensures NoneLost(s, p, key) ==> NoneLost(Moved(s, t, m), Moved(p, t, m), key)
  {
    assert TxRel(differ, key, r, s.open[t], p.open[t]);
    match m {
      case Stay =>
      case Go(tx) => PutRel(differ, s, p, key, r, t, tx, tx);
      case Take(tx) =>
        PutRel(differ, s, p, key, r, t, tx, tx);
        NumberRel(differ, Put(s, t, tx), Put(p, t, tx), key, r);
      case Tell(answer) => CloseRel(differ, s, p, key, r, t, [answer]);
      case Store(row, answer) =>
        var k := s.open[t].key;
        StoreElsewhere(differ, s, p, key, r, k, row);
        CloseRel(differ, Stored(s, k, row), Stored(p, k, row), key, r, t, [answer]);
    }
  }

  lemma StepElsewhere(z: bool, differ: bool, s: State, p: State, key: Key, r: Row, e: Event)
    requires Rel(differ, s, p, key, r) && OfTx(e) && e.t in s.open && s.open[e.t].key != key
    ensures Rel(differ, Next(z, s, e), Next(z, p, e), key, r)
    ensures NoneAhead(s, p) ==> NoneAhead(Next(z, s, e), Next(z, p, e))
    ensures NoneLost(s, p, key) ==> NoneLost(Next(z, s, e), Next(z, p, e), key)
  {
    assert TxRel(differ, key, r, s.open[e.t], p.open[e.t]);
    SameElsewhere(differ, s, p, key, r, e.t, s.open[e.t].key);
    NextIsMove(z, s, e);
    NextIsMove(z, p, e);
    MoveElsewhere(differ, s, p, key, r, e.t, MoveAt(z, s, e));
  }

  /** Starting, giving up, waiting and other purges are the same for everybody. */
  lemma StepOutside(z: bool, differ: bool, s: State, p: State, key: Key, r: Row, e: Event)
    requires Rel(differ, s, p, key, r) && (e.Start? || e.Abort? || e.Tick? || (e.Purge? && e.key != key))
    ensures Rel(differ, Next(z, s, e), Next(z, p, e), key, r)
    ensures NoneAhead(s, p) ==> NoneAhead(Next(z, s, e), Next(z, p, e))
    ensures NoneLost(s, p, key) ==> NoneLost(Next(z, s, e), Next(z, p, e), key)
  {
    match e {
      case Start(t, k, hash, expiresAt) => StartRel(z, differ, s, p, key, r, e);
      case Abort(t) =>
        CloseRel(differ, s, p, key, r, t, []);
        assert s.answers + [] == s.answers && p.answers + [] == p.answers;
      case Tick(_) =>
      case Purge(k) => PurgeElsewhere(z, differ, s, p, key, r, k);
      case _ =>
    }
  }

  lemma StartRel(z: bool, differ: bool, s: State, p: State, key: Key, r: Row, e: Event)
    requires Rel(differ, s, p, key, r) && e.Start?
    ensures Rel(differ, Next(z, s, e), Next(z, p, e), key, r)
    ensures NoneAhead(s, p) ==> NoneAhead(Next(z, s, e), Next(z, p, e))
    ensures NoneLost(s, p, key) ==> NoneLost(Next(z, s, e), Next(z, p, e), key)
  {
    if e.t !in s.open {
      var expiry := if e.expiresAt.Some? then e.expiresAt.value else s.clock + TTL_MS;
      var tx := Tx(e.key, e.hash, s.clock, expiry, Untouched, Inserting);
      PutRel(differ, s, p, key, r, e.t, tx, tx);
    }
  }

  lemma PurgeElsewhere(z: bool, differ: bool, s: State, p: State, key: Key, r: Row, k: Key)
    requires Rel(differ, s, p, key, r) && k != key
    ensures Rel(differ, Next(z, s, Purge(k)), Next(z, p, Purge(k)), key, r)
    ensures NoneAhead(s, p) ==> NoneAhead(Next(z, s, Purge(k)), Next(z, p, Purge(k)))
    ensures NoneLost(s, p, key) ==> NoneLost(Next(z, s, Purge(k)), Next(z, p, Purge(k)), key)
  {
    SameElsewhere(differ, s, p, key, r, 0, k);
  }

  /** The same move of a request for this key that is in the same place in both. */
  lemma MoveAlike(differ: bool, s: State, p: State, key: Key, r: Row, t: TxId, m: Move)
    requires Rel(differ, s, p, key, r) && t in s.open && s.open[t].key == key && KeepsKey(m, key)
    requires m.Go? || m.Take? ==> Alike(m.tx, m.tx, r) && r.expiresAt <= m.tx.now
    requires m.Go? || m.Take? ==> !differ || !m.tx.overlay.Deleted?
    requires m.Store? ==> m.row.id > r.id && OthersUntouched(s, t, key)
    ensures Rel(differ && !m.Store?, Moved(s, t, m), Moved(p, t, m), key, r)
    ensures NoneAhead(s, p) ==> NoneAhead(Moved(s, t, m), Moved(p, t, m))
    ensures NoneLost(s, p, key) && !m.Store? ==> NoneLost(Moved(s, t, m), Moved(p, t, m), key)
  {
    assert TxRel(differ, key, r, s.open[t], p.open[t]);
    match m {
      case Stay =>
      case Go(tx) => PutRel(differ, s, p, key, r, t, tx, tx);
      case Take(tx) =>
        PutRel(differ, s, p, key, r, t, tx, tx);
        NumberRel(differ, Put(s, t, tx), Put(p, t, tx), key, r);
      case Tell(answer) => CloseRel(differ, s, p, key, r, t, [answer]);
      case Store(row, answer) =>
        CloseRel(differ, s, p, key, r, t, [answer]);
        StoreRel(differ, Closed(s, t, [answer]), Closed(p, t, [answer]), key, r, row);
        assert Moved(s, t, m) == Stored(Closed(s, t, [answer]), key, row);
        assert Moved(p, t, m) == Stored(Closed(p, t, [answer]), key, row);
    }
  }

  predicate OthersUntouched(s: State, t: TxId, key: Key) {
    forall u | u in s.open && u != t && s.open[u].key == key :: s.open[u].overlay.Untouched?
  }

  /** A newer row in both tables ends the difference. */
  lemma StoreRel(differ: bool, s: State, p: State, key: Key, r: Row, row: Row)
    requires Rel(differ, s, p, key, r) && row.id > r.id
    requires forall u | u in s.open && s.open[u].key == key :: s.open[u].overlay.Untouched?
    ensures Rel(false, Stored(s, key, row), Stored(p, key, row), key, r)
    ensures NoneAhead(s, p) ==> NoneAhead(Stored(s, key, row), Stored(p, key, row))
  {
    forall u | u in s.open
      ensures TxRel(false, key, r, s.open[u], p.open[u])
    {
      assert TxRel(differ, key, r, s.open[u], p.open[u]);
    }
  }

  /** Where the tables are equal, requests in the same place make the same move. */
  lemma StepAlike(z: bool, s: State, p: State, key: Key, r: Row, e: Event)
    requires Rel(false, s, p, key, r) && OfTx(e) && e.t in s.open && Local(s, e.t)
    requires s.open[e.t].key == key && s.open[e.t] == p.open[e.t]
    ensures Rel(false, Next(z, s, e), Next(z, p, e), key, r) && NoneAhead(Next(z, s, e), Next(z, p, e))
    ensures NoneLost(s, p, key) && !MoveAt(z, s, e).Store? ==> NoneLost(Next(z, s, e), Next(z, p, e), key)
  {
    EqualOverlays(s, p, key, r);
    SameBlocked(s, p, e.t, key);
    NextIsMove(z, s, e);
    NextIsMove(z, p, e);
    assert TxRel(false, key, r, s.open[e.t], p.open[e.t]);
    MoveAlike(false, s, p, key, r, e.t, MoveAt(z, s, e));
  }

  lemma EqualOverlays(s: State, p: State, key: Key, r: Row)
    requires Rel(false, s, p, key, r)
    ensures NoneAhead(s, p) && forall u | u in s.open :: s.open[u].key == p.open[u].key
  {
    forall u | u in s.open
      ensures s.open[u].overlay == p.open[u].overlay && s.open[u].key == p.open[u].key
    {
      assert TxRel(false, key, r, s.open[u], p.open[u]);
    }
  }

  lemma SameKeys(differ: bool, s: State, p: State, key: Key, r: Row)
    requires Rel(differ, s, p, key, r)
    ensures forall u | u in s.open :: s.open[u].key == p.open[u].key
  {
    forall u | u in s.open
      ensures s.open[u].key == p.open[u].key
    {
      assert TxRel(differ, key, r, s.open[u], p.open[u]);
    }
  }

  /** Work and commit do not look at the table, so they are alike while it differs too. */
  lemma StepOwned(z: bool, differ: bool, s: State, p: State, key: Key, r: Row, e: Event)
    requires Rel(differ, s, p, key, r) && (e.Work? || e.Commit?) && e.t in s.open && Local(s, e.t)
    requires s.open[e.t].key == key && s.open[e.t] == p.open[e.t]
    ensures Rel(differ && !MoveAt(z, s, e).Store?, Next(z, s, e), Next(z, p, e), key, r)
    ensures NoneAhead(s, p) ==> NoneAhead(Next(z, s, e), Next(z, p, e))
    ensures NoneLost(s, p, key) && !MoveAt(z, s, e).Store? ==> NoneLost(Next(z, s, e), Next(z, p, e), key)
  {
    NextIsMove(z, s, e);
    NextIsMove(z, p, e);
    assert TxRel(differ, key, r, s.open[e.t], p.open[e.t]);
    MoveAlike(differ, s, p, key, r, e.t, MoveAt(z, s, e));
  }

  // ---------------------------------------------------------------------------------
  // Catching up
  // ---------------------------------------------------------------------------------

  function Taken(tx: Tx, nextId: nat): Tx {
    tx.(overlay := Inserted(Row(nextId, tx.hash, PENDING, PENDING_BODY, tx.expiresAt)), phase := Working)
  }

  lemma PutPut(s: State, t: TxId, a: Tx, b: Tx)
    ensures Put(Put(s, t, a), t, b) == Put(s, t, b)
  {
    assert s.open[t := a][t := b] == s.open[t := b];
  }

  /** Nobody else is at the key, whatever this request does. */
  lemma FreeStays(s: State, t: TxId, tx: Tx, key: Key)
    requires !Blocked(s, t, key)
    ensures !Blocked(Put(s, t, tx), t, key)
  {
  }

  /** One step of a request that goes on. */
  lemma StepGo(z: bool, s: State, e: Event, tx: Tx)
    requires OfTx(e) && e.t in s.open && MoveAt(z, s, e) == Go(tx)
    ensures Next(z, s, e) == Put(s, e.t, tx)
  {
    NextIsMove(z, s, e);
  }

  lemma StepStay(z: bool, s: State, e: Event)
    requires OfTx(e) && e.t in s.open && MoveAt(z, s, e) == Stay
    ensures Next(z, s, e) == s
  {
    NextIsMove(z, s, e);
  }

  /** From Inserting, a request that the row is in the way of looks at it. */
  lemma LooksFirst(z: bool, s: State, t: TxId, key: Key, r: Row) returns (es: seq<Event>)
    requires t in s.open && s.open[t].key == key && s.open[t].overlay.Untouched? && Get(s.committed, key) == Some(r)
    requires !Blocked(s, t, key) && r.expiresAt <= s.open[t].now
    requires s.open[t].phase.Inserting? || s.open[t].phase.Finding? || s.open[t].phase == Deleting(r)
    ensures Steps(z, s, es) == Put(s, t, s.open[t].(phase := Deleting(r)))
  {
    var tx := s.open[t];
    if tx.phase.Inserting? {
      StepGo(z, s, Insert(t), tx.(phase := Finding));
      var found := Put(s, t, tx.(phase := Finding));
      StepGo(z, found, Find(t), tx.(phase := Deleting(r)));
      PutPut(s, t, tx.(phase := Finding), tx.(phase := Deleting(r)));
      es := [Insert(t), Find(t)];
      TwoSteps(z, s, es);
    } else if tx.phase.Finding? {
      StepGo(z, s, Find(t), tx.(phase := Deleting(r)));
      es := [Find(t)];
      OneStep(z, s, Find(t));
    } else {
      es := [];
      assert s.open[t := tx] == s.open;
    }
  }

  /** A request that the expired row is in the way of removes it and takes the key. */
  lemma TakesOver(z: bool, s: State, t: TxId, key: Key, r: Row) returns (es: seq<Event>)
    requires t in s.open && s.open[t].key == key && s.open[t].overlay.Untouched? && Get(s.committed, key) == Some(r)
    requires !Blocked(s, t, key) && r.expiresAt <= s.open[t].now
    requires s.open[t].phase.Inserting? || s.open[t].phase.Finding? || s.open[t].phase == Deleting(r)
    ensures Steps(z, s, es) == Numbered(Put(s, t, Taken(s.open[t], s.nextId)))
  {
    var tx := s.open[t];
    var first := LooksFirst(z, s, t, key, r);
    var ready, gone := tx.(phase := Deleting(r)), tx.(overlay := Deleted, phase := Inserting);
    var looked := Put(s, t, ready);
    FreeStays(s, t, ready, key);
    FreeStays(s, t, gone, key);
    StepGo(z, looked, Delete(t), gone);
    PutPut(s, t, ready, gone);
    var removed := Put(s, t, gone);
    NextIsMove(z, removed, Insert(t));
    PutPut(s, t, gone, Taken(tx, s.nextId));
    assert Taken(gone, s.nextId) == Taken(tx, s.nextId);
    TwoSteps(z, looked, [Delete(t), Insert(t)]);
    es := first + [Delete(t), Insert(t)];
    StepsConcat(z, s, first, [Delete(t), Insert(t)]);
  }

  /** Once the row is gone, a request that still looks for it starts over. */
  lemma StartsOver(z: bool, s: State, t: TxId, key: Key, r: Row) returns (es: seq<Event>)
    requires t in s.open && s.open[t].key == key && s.open[t].overlay.Untouched?
    requires s.open[t].phase == Deleting(r) || (s.open[t].phase.Finding? && key !in s.committed)
    requires Get(s.committed, key) != Some(r)
    ensures Steps(z, s, es) == Put(s, t, s.open[t].(phase := Inserting))
  {
    var tx := s.open[t];
    var e := if tx.phase.Finding? then Find(t) else Delete(t);
    StepGo(z, s, e, tx.(phase := Inserting));
    es := [e];
    OneStep(z, s, e);
  }

  // ---------------------------------------------------------------------------------
  // The state with the row can follow the one without it
  // ---------------------------------------------------------------------------------

  lemma PutSame(s: State, t: TxId)
    requires t in s.open
    ensures Put(s, t, s.open[t]) == s
  {
    assert s.open[t := s.open[t]] == s.open;
  }

  lemma InsertFollows(z: bool, differ: bool, s: State, p: State, key: Key, r: Row, t: TxId) returns (es: seq<Event>)
    requires Rel(differ, s, p, key, r) && NoneAhead(s, p) && t in s.open && s.open[t].key == key
    requires Local(s, t) && Local(p, t)
    ensures Rel(differ, Steps(z, s, es), Next(z, p, Insert(t)), key, r)
    ensures NoneAhead(Steps(z, s, es), Next(z, p, Insert(t)))
  {
    var a, b := s.open[t], p.open[t];
    assert TxRel(differ, key, r, a, b);
    SameKeys(differ, s, p, key, r);
    SameBlocked(s, p, t, key);
    if !b.phase.Inserting? || Blocked(p, t, key) {
      StepStay(z, p, Insert(t));
      es := [];
    } else if differ {
      es := TakesOver(z, s, t, key, r);
      NextIsMove(z, p, Insert(t));
      assert Taken(a, s.nextId) == Taken(b, p.nextId);
      PutRel(differ, s, p, key, r, t, Taken(a, s.nextId), Taken(b, p.nextId));
      NumberRel(differ, Put(s, t, Taken(a, s.nextId)), Put(p, t, Taken(b, p.nextId)), key, r);
    } else if a == b {
      es := [Insert(t)];
      OneStep(z, s, Insert(t));
      StepAlike(z, s, p, key, r, Insert(t));
    } else if a.phase.Finding? && key in p.committed {
      StepGo(z, p, Insert(t), b.(phase := Finding));
      PutSame(s, t);
      PutRel(differ, s, p, key, r, t, a, b.(phase := Finding));
      es := [];
    } else {
      var over := StartsOver(z, s, t, key, r);
      var s1 := Steps(z, s, over);
      PutSame(p, t);
      PutRel(differ, s, p, key, r, t, b, b);
      assert TxOk(s1, b);
      StepAlike(z, s1, p, key, r, Insert(t));
      es := over + [Insert(t)];
      StepsConcat(z, s, over, [Insert(t)]);
      OneStep(z, s1, Insert(t));
    }
  }

  lemma FindFollows(z: bool, differ: bool, s: State, p: State, key: Key, r: Row, t: TxId) returns (es: seq<Event>)
    requires Rel(differ, s, p, key, r) && NoneAhead(s, p) && t in s.open && s.open[t].key == key
    requires Local(s, t) && Local(p, t)
    ensures Rel(differ, Steps(z, s, es), Next(z, p, Find(t)), key, r)
    ensures NoneAhead(Steps(z, s, es), Next(z, p, Find(t)))
  {
    var a, b := s.open[t], p.open[t];
    assert TxRel(differ, key, r, a, b);
    es := [];
    if !b.phase.Finding? {
      StepStay(z, p, Find(t));
    } else if differ {
      StepGo(z, p, Find(t), b.(phase := Inserting));
      PutSame(s, t);
      PutRel(differ, s, p, key, r, t, a, b.(phase := Inserting));
    } else {
      es := [Find(t)];
      OneStep(z, s, Find(t));
      StepAlike(z, s, p, key, r, Find(t));
    }
  }

  lemma DeleteFollows(z: bool, differ: bool, s: State, p: State, key: Key, r: Row, t: TxId) returns (es: seq<Event>)
    requires Rel(differ, s, p, key, r) && NoneAhead(s, p) && t in s.open && s.open[t].key == key
    requires Local(s, t) && Local(p, t)
    ensures Rel(differ, Steps(z, s, es), Next(z, p, Delete(t)), key, r)
    ensures NoneAhead(Steps(z, s, es), Next(z, p, Delete(t)))
  {
    var a, b := s.open[t], p.open[t];
    assert TxRel(differ, key, r, a, b);
    es := [];
    if !b.phase.Deleting? {
      StepStay(z, p, Delete(t));
    } else if differ {
      StepGo(z, p, Delete(t), b.(phase := Inserting));
      if b.phase.row == r {
        PutSame(s, t);
        PutRel(differ, s, p, key, r, t, a, b.(phase := Inserting));
      } else {
        es := [Delete(t)];
        OneStep(z, s, Delete(t));
        StepGo(z, s, Delete(t), a.(phase := Inserting));
        PutRel(differ, s, p, key, r, t, a.(phase := Inserting), b.(phase := Inserting));
      }
    } else {
      es := [Delete(t)];
      OneStep(z, s, Delete(t));
      StepAlike(z, s, p, key, r, Delete(t));
    }
  }

  /** The tables differ, or no longer. */
  ghost predicate Follows(s: State, p: State, key: Key, r: Row) {
    Rel(true, s, p, key, r) || Rel(false, s, p, key, r)
  }

  lemma OwnedFollows(z: bool, differ: bool, s: State, p: State, key: Key, r: Row, e: Event) returns (es: seq<Event>)
    requires Rel(differ, s, p, key, r) && NoneAhead(s, p) && (e.Work? || e.Commit?)
    requires e.t in s.open && s.open[e.t].key == key && Local(s, e.t)
    ensures Follows(Steps(z, s, es), Next(z, p, e), key, r) && NoneAhead(Steps(z, s, es), Next(z, p, e))
  {
    var a, b := s.open[e.t], p.open[e.t];
    assert TxRel(differ, key, r, a, b);
    if a == b {
      es := [e];
      OneStep(z, s, e);
      StepOwned(z, differ, s, p, key, r, e);
    } else {
      StepStay(z, p, e);
      es := [];
    }
  }

  lemma PurgeEqual(z: bool, s: State, p: State, key: Key, r: Row)
    requires Rel(false, s, p, key, r)
    ensures Rel(false, Next(z, s, Purge(key)), Next(z, p, Purge(key)), key, r)
    ensures NoneAhead(Next(z, s, Purge(key)), Next(z, p, Purge(key)))
    ensures NoneLost(s, p, key) ==> NoneLost(Next(z, s, Purge(key)), Next(z, p, Purge(key)), key)
  {
    EqualOverlays(s, p, key, r);
    SameBlocked(s, p, 0, key);
    var s', p' := Next(z, s, Purge(key)), Next(z, p, Purge(key));
    forall u | u in s'.open
      ensures TxRel(false, key, r, s'.open[u], p'.open[u])
    {
      assert TxRel(false, key, r, s.open[u], p.open[u]);
    }
  }

  /** Any step without the row can be followed with it. */
  lemma StepFollows(z: bool, s: State, p: State, key: Key, r: Row, e: Event) returns (es: seq<Event>)
    requires Follows(s, p, key, r) && NoneAhead(s, p) && Both(s, p)
    ensures Follows(Steps(z, s, es), Next(z, p, e), key, r) && NoneAhead(Steps(z, s, es), Next(z, p, e))
    ensures Both(Steps(z, s, es), Next(z, p, e))
  {
    var differ := Rel(true, s, p, key, r);
    es := [e];
    if OfTx(e) && e.t in s.open {
      LocalOf(s, e.t);
      LocalOf(p, e.t);
    }
    OneStep(z, s, e);
    if OfTx(e) && e.t !in s.open {
    } else if OfTx(e) && s.open[e.t].key != key {
      StepElsewhere(z, differ, s, p, key, r, e);
    } else if e.Insert? {
      es := InsertFollows(z, differ, s, p, key, r, e.t);
    } else if e.Find? {
      es := FindFollows(z, differ, s, p, key, r, e.t);
    } else if e.Delete? {
      es := DeleteFollows(z, differ, s, p, key, r, e.t);
    } else if OfTx(e) {
      es := OwnedFollows(z, differ, s, p, key, r, e);
    } else if e != Purge(key) {
      StepOutside(z, differ, s, p, key, r, e);
    } else if differ {
      es := [];
    } else {
      PurgeEqual(z, s, p, key, r);
    }
    InvSteps(z, s, es);
    StepKeepsInv(z, p, e);
  }

  // ---------------------------------------------------------------------------------
  // The state without the row can follow the one with it
  // ---------------------------------------------------------------------------------

  /** Whoever is at the key without the row is so with it. */
  lemma FewerBlocked(differ: bool, s: State, p: State, key: Key, r: Row, t: TxId)
    requires Rel(differ, s, p, key, r)
    ensures Blocked(p, t, key) ==> Blocked(s, t, key)
  {
    if u :| u in p.open && u != t && p.open[u].key == key && !p.open[u].overlay.Untouched? {
      assert TxRel(differ, key, r, s.open[u], p.open[u]);
      assert s.open[u].key == key && !s.open[u].overlay.Untouched?;
    }
  }

  lemma InsertFollowed(z: bool, differ: bool, s: State, p: State, key: Key, r: Row, t: TxId) returns (es: seq<Event>)
    requires Rel(differ, s, p, key, r) && NoneLost(s, p, key) && t in s.open && s.open[t].key == key
    requires Local(s, t) && Local(p, t)
    ensures Rel(differ, Next(z, s, Insert(t)), Steps(z, p, es), key, r)
    ensures NoneLost(Next(z, s, Insert(t)), Steps(z, p, es), key)
  {
    var a, b := s.open[t], p.open[t];
    assert TxRel(differ, key, r, a, b);
    es := [];
    if !a.phase.Inserting? || Blocked(s, t, key) {
      StepStay(z, s, Insert(t));
    } else if !differ {
      es := [Insert(t)];
      OneStep(z, p, Insert(t));
      StepAlike(z, s, p, key, r, Insert(t));
    } else if a == b {
      StepGo(z, s, Insert(t), a.(phase := Finding));
      PutSame(p, t);
      PutRel(differ, s, p, key, r, t, a.(phase := Finding), b);
    } else {
      es := [Insert(t)];
      OneStep(z, p, Insert(t));
      AheadTakes(z, s, p, key, r, t);
    }
  }

  /** A request that has deleted the row already takes the key, as it does without the row. */
  lemma AheadTakes(z: bool, s: State, p: State, key: Key, r: Row, t: TxId)
    requires Rel(true, s, p, key, r) && NoneLost(s, p, key) && t in s.open && s.open[t].key == key
    requires Ahead(s.open[t], p.open[t]) && !Blocked(s, t, key)
    ensures Rel(true, Next(z, s, Insert(t)), Next(z, p, Insert(t)), key, r)
    ensures NoneLost(Next(z, s, Insert(t)), Next(z, p, Insert(t)), key)
  {
    var a, b := s.open[t], p.open[t];
    assert TxRel(true, key, r, a, b);
    FewerBlocked(true, s, p, key, r, t);
    NextIsMove(z, s, Insert(t));
    NextIsMove(z, p, Insert(t));
    var tx := Taken(a, s.nextId);
    assert tx == Taken(b, p.nextId);
    PutRel(true, s, p, key, r, t, tx, tx);
    NumberRel(true, Put(s, t, tx), Put(p, t, tx), key, r);
  }

  lemma FindFollowed(z: bool, differ: bool, s: State, p: State, key: Key, r: Row, t: TxId) returns (es: seq<Event>)
    requires Rel(differ, s, p, key, r) && NoneLost(s, p, key) && t in s.open && s.open[t].key == key
    requires Local(s, t) && Local(p, t)
    ensures Rel(differ, Next(z, s, Find(t)), Steps(z, p, es), key, r)
    ensures NoneLost(Next(z, s, Find(t)), Steps(z, p, es), key)
  {
    var a, b := s.open[t], p.open[t];
    assert TxRel(differ, key, r, a, b);
    es := [];
    if !a.phase.Finding? {
      StepStay(z, s, Find(t));
    } else if differ {
      StepGo(z, s, Find(t), a.(phase := Deleting(r)));
      if a == b {
        StepGo(z, p, Find(t), b.(phase := Inserting));
        es := [Find(t)];
        OneStep(z, p, Find(t));
      } else {
        PutSame(p, t);
      }
      PutRel(differ, s, p, key, r, t, a.(phase := Deleting(r)), b.(phase := Inserting));
    } else if a == b {
      es := [Find(t)];
      OneStep(z, p, Find(t));
      StepAlike(z, s, p, key, r, Find(t));
    } else {
      StepGo(z, s, Find(t), a.(phase := Inserting));
      PutSame(p, t);
      PutRel(differ, s, p, key, r, t, a.(phase := Inserting), b);
    }
  }

  lemma DeleteFollowed(z: bool, differ: bool, s: State, p: State, key: Key, r: Row, t: TxId) returns (es: seq<Event>)
    requires Rel(differ, s, p, key, r) && NoneLost(s, p, key) && t in s.open && s.open[t].key == key
    requires Local(s, t) && Local(p, t)
    ensures Rel(differ, Next(z, s, Delete(t)), Steps(z, p, es), key, r)
    ensures NoneLost(Next(z, s, Delete(t)), Steps(z, p, es), key)
  {
    var a, b := s.open[t], p.open[t];
    assert TxRel(differ, key, r, a, b);
    es := [];
    if !a.phase.Deleting? || (Get(s.committed, key) == Some(a.phase.row) && Blocked(s, t, key) && differ) {
      StepStay(z, s, Delete(t));
    } else if !differ && a == b {
      es := [Delete(t)];
      OneStep(z, p, Delete(t));
      StepAlike(z, s, p, key, r, Delete(t));
    } else {
      var a' := if Get(s.committed, key) == Some(a.phase.row) then a.(overlay := Deleted, phase := Inserting)
                else a.(phase := Inserting);
      StepGo(z, s, Delete(t), a');
      if a == b {
        StepGo(z, p, Delete(t), b.(phase := Inserting));
        es := [Delete(t)];
        OneStep(z, p, Delete(t));
      } else {
        PutSame(p, t);
      }
      PutRel(differ, s, p, key, r, t, a', b.(phase := Inserting));
    }
  }

  lemma PurgeFollowed(z: bool, s: State, p: State, key: Key, r: Row)
    requires Rel(true, s, p, key, r)
    ensures Follows(Next(z, s, Purge(key)), p, key, r) && NoneLost(Next(z, s, Purge(key)), p, key)
  {
    var s' := Next(z, s, Purge(key));
    if !Touched(s, key) {
      assert s'.committed == p.committed;
      forall u | u in s'.open
        ensures TxRel(false, key, r, s'.open[u], p.open[u])
      {
        assert TxRel(true, key, r, s.open[u], p.open[u]);
        assert s.open[u].key == key ==> s.open[u].overlay.Untouched?;
      }
    }
  }

  lemma SyncOne(z: bool, s: State, p: State, key: Key, r: Row, t: TxId)
    requires Rel(false, s, p, key, r) && key in p.committed && !Touched(p, key)
    requires t in s.open && s.open[t].key == key && s.open[t].phase.Finding? && !p.open[t].phase.Finding?
    ensures Rel(false, s, Next(z, p, Insert(t)), key, r)
    ensures Next(z, p, Insert(t)) == Put(p, t, s.open[t]) && !Touched(Put(p, t, s.open[t]), key)
  {
    assert TxRel(false, key, r, s.open[t], p.open[t]);
    StepGo(z, p, Insert(t), p.open[t].(phase := Finding));
    PutSame(s, t);
    PutRel(false, s, p, key, r, t, s.open[t], s.open[t]);
  }

  /** After a commit of the key, the requests that would look for the new row look for it in
      both. */
  lemma {:induction false} Sync(z: bool, s: State, p: State, key: Key, r: Row, lost: set<TxId>) returns (es: seq<Event>)
    requires Rel(false, s, p, key, r) && Both(s, p) && key in p.committed && !Touched(p, key)
    requires forall t | t in s.open && s.open[t].key == key && s.open[t].phase.Finding? && !p.open[t].phase.Finding? ::
               t in lost
    ensures Rel(false, s, Steps(z, p, es), key, r) && NoneLost(s, Steps(z, p, es), key)
    decreases |lost|
  {
    if lost == {} {
      es := [];
    } else {
      var t :| t in lost;
      if t in s.open && s.open[t].key == key && s.open[t].phase.Finding? && !p.open[t].phase.Finding? {
        SyncOne(z, s, p, key, r, t);
        var p1 := Next(z, p, Insert(t));
        StepKeepsInv(z, p, Insert(t));
        var rest := Sync(z, s, p1, key, r, lost - {t});
        es := [Insert(t)] + rest;
        OneStep(z, p, Insert(t));
        StepsConcat(z, p, [Insert(t)], rest);
      } else {
        es := Sync(z, s, p, key, r, lost - {t});
      }
    }
  }

  lemma OwnedFollowed(z: bool, differ: bool, s: State, p: State, key: Key, r: Row, e: Event) returns (es: seq<Event>)
    requires Rel(differ, s, p, key, r) && NoneLost(s, p, key) && Both(s, p) && (e.Work? || e.Commit?)
    requires e.t in s.open && s.open[e.t].key == key
    ensures Follows(Next(z, s, e), Steps(z, p, es), key, r) && NoneLost(Next(z, s, e), Steps(z, p, es), key)
  {
    var a, b := s.open[e.t], p.open[e.t];
    assert TxRel(differ, key, r, a, b);
    es := [];
    if a != b {
      StepStay(z, s, e);
    } else {
      LocalOf(s, e.t);
      StepOwned(z, differ, s, p, key, r, e);
      OneStep(z, p, e);
      es := [e];
      if MoveAt(z, s, e).Store? {
        var s1, p1 := Next(z, s, e), Next(z, p, e);
        StepKeepsInv(z, s, e);
        StepKeepsInv(z, p, e);
        StoredUntouched(z, p, e, key);
        var rest := Sync(z, s1, p1, key, r, s1.open.Keys);
        es := [e] + rest;
        StepsConcat(z, p, [e], rest);
      }
    }
  }

  lemma StoredUntouched(z: bool, p: State, e: Event, key: Key)
    requires Inv(p) && e.Commit? && e.t in p.open && p.open[e.t].key == key && MoveAt(z, p, e).Store?
    ensures key in Next(z, p, e).committed && !Touched(Next(z, p, e), key)
  {
    NextIsMove(z, p, e);
    LocalOf(p, e.t);
  }

  /** Any step with the row can be followed without it. */
  lemma StepFollowed(z: bool, s: State, p: State, key: Key, r: Row, e: Event) returns (es: seq<Event>)
    requires Follows(s, p, key, r) && NoneLost(s, p, key) && Both(s, p)
    ensures Follows(Next(z, s, e), Steps(z, p, es), key, r) && NoneLost(Next(z, s, e), Steps(z, p, es), key)
    ensures Both(Next(z, s, e), Steps(z, p, es))
  {
    var differ := Rel(true, s, p, key, r);
    es := [e];
    if OfTx(e) && e.t in s.open {
      LocalOf(s, e.t);
      LocalOf(p, e.t);
    }
    OneStep(z, p, e);
    if OfTx(e) && e.t !in s.open {
    } else if OfTx(e) && s.open[e.t].key != key {
      StepElsewhere(z, differ, s, p, key, r, e);
    } else if e.Insert? {
      es := InsertFollowed(z, differ, s, p, key, r, e.t);
    } else if e.Find? {
      es := FindFollowed(z, differ, s, p, key, r, e.t);
    } else if e.Delete? {
      es := DeleteFollowed(z, differ, s, p, key, r, e.t);
    } else if OfTx(e) {
      es := OwnedFollowed(z, differ, s, p, key, r, e);
    } else if e != Purge(key) {
      StepOutside(z, differ, s, p, key, r, e);
    } else if differ {
      PurgeFollowed(z, s, p, key, r);
      es := [];
    } else {
      PurgeEqual(z, s, p, key, r);
    }
    InvSteps(z, p, es);
    StepKeepsInv(z, s, e);
  }

  // ---------------------------------------------------------------------------------
  // A request that began before the row expired
  // ---------------------------------------------------------------------------------

  /** It will be answered by the row. */
  lemma OldReaderReads(z: bool, s: State, key: Key, t: TxId) returns (more: seq<Event>, a: Answer)
    requires Inv(s) && FreshRows(s) && key in s.committed && !Touched(s, key)
    requires t in s.open && s.open[t].key == key && s.open[t].now < s.committed[key].expiresAt
    ensures Steps(z, s, more).answers == s.answers + [a] && a.key == key && !a.kind.Executed?
  {
    var tx, r := s.open[t], s.committed[key];
    assert TxOk(s, tx) && FreshTx(tx, s.nextId) && tx.overlay.Untouched?;
    var looking := Put(s, t, tx.(phase := Finding));
    var first: seq<Event>;
    if tx.phase.Finding? {
      PutSame(s, t);
      first := [];
    } else if tx.phase.Inserting? {
      StepGo(z, s, Insert(t), tx.(phase := Finding));
      first := [Insert(t)];
      OneStep(z, s, Insert(t));
    } else {
      var idle := Put(s, t, tx.(phase := Inserting));
      StepGo(z, s, Delete(t), tx.(phase := Inserting));
      FreeStays(s, t, tx.(phase := Inserting), key);
      StepGo(z, idle, Insert(t), tx.(phase := Finding));
      PutPut(s, t, tx.(phase := Inserting), tx.(phase := Finding));
      first := [Delete(t), Insert(t)];
      TwoSteps(z, s, first);
    }
    NextIsMove(z, looking, Find(t));
    a := MoveAt(z, looking, Find(t)).answer;
    more := first + [Find(t)];
    StepsConcat(z, s, first, [Find(t)]);
    OneStep(z, looking, Find(t));
  }

  /** Without a row the next answer about the key is that of an execution. */
  predicate ExecutedFirst(told: seq<Answer>, s: State, key: Key) {
    && told <= s.answers
    && (s.answers == told ==> key !in s.committed)
    && (|s.answers| > |told| && s.answers[|told|].key == key ==> s.answers[|told|].kind.Executed?)
  }

  lemma ExecutedFirstStep(z: bool, told: seq<Answer>, s: State, key: Key, e: Event)
    requires Inv(s) && ExecutedFirst(told, s, key)
    ensures ExecutedFirst(told, Next(z, s, e), key)
  {
    if OfTx(e) && e.t in s.open {
      NextIsMove(z, s, e);
      assert TxOk(s, s.open[e.t]);
    }
  }

  lemma {:induction false} ExecutedFirstSteps(z: bool, told: seq<Answer>, s: State, key: Key, more: seq<Event>)
    requires Inv(s) && ExecutedFirst(told, s, key)
    ensures ExecutedFirst(told, Steps(z, s, more), key)
    decreases |more|
  {
    if more != [] {
      ExecutedFirstStep(z, told, s, key, more[0]);
      StepKeepsInv(z, s, more[0]);
      ExecutedFirstSteps(z, told, Next(z, s, more[0]), key, more[1..]);
    }
  }

  // ---------------------------------------------------------------------------------
  // The lookup without a reservation
  // ---------------------------------------------------------------------------------

  /** What one lookup told its caller, and how many requests had their answer by then. */
  datatype Told = Told(i: nat, reply: Option<(int, string)>, answered: nat)

  /** The table with its requests, and the lookups that have read it and not told yet. */
  datatype World = World(s: State, pending: map<nat, Option<Row>>, told: seq<Told>)

  /** A lookup reads the row, and its own clock later: anything can happen in between. */
  datatype Happening = Base(e: Event) | Look(i: nat, key: Key) | Reply(i: nat)

  function WorldNext(z: bool, w: World, h: Happening): World {
    match h
    case Base(e) => w.(s := Next(z, w.s, e))
    case Look(i, key) => if i in w.pending then w else w.(pending := w.pending[i := Get(w.s.committed, key)])
    case Reply(i) =>
      if i !in w.pending then w
      else
        var reply := Peeked(w.pending[i], w.s.clock);
        World(w.s, w.pending - {i}, w.told + [Told(i, reply, |w.s.answers|)])
  }

  function WorldSteps(z: bool, w: World, hs: seq<Happening>): World
    decreases |hs|
  {
    if hs == [] then w else WorldSteps(z, WorldNext(z, w, hs[0]), hs[1..])
  }

  function WorldRun(z: bool, hs: seq<Happening>): World {
    if hs == [] then World(INITIAL, map[], []) else WorldNext(z, WorldRun(z, hs[..|hs| - 1]), hs[|hs| - 1])
  }

  lemma {:induction false} WorldReachable(z: bool, hs: seq<Happening>)
    ensures Inv(WorldRun(z, hs).s) && FreshRows(WorldRun(z, hs).s)
  {
    if hs == [] {
      Reachable(z, []);
      FreshReachable(z, []);
    } else {
      var init, h := hs[..|hs| - 1], hs[|hs| - 1];
      WorldReachable(z, init);
      if h.Base? {
        StepKeepsInv(z, WorldRun(z, init).s, h.e);
        FreshStep(z, WorldRun(z, init).s, h.e);
      }
    }
  }

  lemma {:induction false} WorldStepsConcat(z: bool, w: World, a: seq<Happening>, b: seq<Happening>)
    ensures WorldSteps(z, w, a + b) == WorldSteps(z, WorldSteps(z, w, a), b)
    decreases |a|
  {
    if a == [] {
      assert a + b == b;
    } else {
      assert (a + b)[1..] == a[1..] + b;
      WorldStepsConcat(z, WorldNext(z, w, a[0]), a[1..], b);
    }
  }

  lemma WorldOneStep(z: bool, w: World, h: Happening)
    ensures WorldSteps(z, w, [h]) == WorldNext(z, w, h)
  {
    assert [h][1..] == [];
  }

  function Lift(es: seq<Event>): seq<Happening> {
    if es == [] then [] else [Base(es[0])] + Lift(es[1..])
  }

  lemma {:induction false} LiftSteps(z: bool, w: World, es: seq<Event>)
    ensures WorldSteps(z, w, Lift(es)) == w.(s := Steps(z, w.s, es))
    decreases |es|
  {
    if es != [] {
      assert Lift(es)[1..] == Lift(es[1..]);
      LiftSteps(z, WorldNext(z, w, Base(es[0])), es[1..]);
    }
  }

  function Requests(hs: seq<Happening>): seq<Event> {
    if hs == [] then [] else (if hs[0].Base? then [hs[0].e] else []) + Requests(hs[1..])
  }

  /** Lookups change nothing for the requests. */
  lemma {:induction false} LookupsOnlyRead(z: bool, w: World, hs: seq<Happening>)
    ensures WorldSteps(z, w, hs).s == Steps(z, w.s, Requests(hs))
    decreases |hs|
  {
    if hs != [] {
      LookupsOnlyRead(z, WorldNext(z, w, hs[0]), hs[1..]);
      if hs[0].Base? {
        assert Requests(hs)[1..] == Requests(hs[1..]);
      } else {
        assert Requests(hs) == Requests(hs[1..]);
      }
    }
  }

  /** Some lookups have read the row in one world and nothing in the other. */
  predicate Shadows(w: World, v: World, r: Row) {
    && w.told == v.told && w.pending.Keys == v.pending.Keys
    && forall i | i in w.pending :: w.pending[i] == v.pending[i] || (w.pending[i] == Some(r) && v.pending[i].None?)
  }

  ghost predicate Alikes(w: World, v: World, key: Key, r: Row) {
    Follows(w.s, v.s, key, r) && Both(w.s, v.s) && Shadows(w, v, r)
  }

  /** They will tell the same: the row had expired when they read it. */
  lemma LookupAlike(z: bool, w: World, v: World, key: Key, r: Row, h: Happening)
    requires Alikes(w, v, key, r) && !h.Base?
    ensures Alikes(WorldNext(z, w, h), WorldNext(z, v, h), key, r)
    ensures WorldNext(z, w, h).s == w.s && WorldNext(z, v, h).s == v.s
  {
    if h.Look? {
      var one, other := Get(w.s.committed, h.key), Get(v.s.committed, h.key);
      assert one == other || (one == Some(r) && other.None?);
    }
  }

  /** Whatever happens without the row, the world with the row can follow. */
  lemma HappeningFollows(z: bool, w: World, v: World, key: Key, r: Row, h: Happening) returns (hs: seq<Happening>)
    requires Alikes(w, v, key, r) && NoneAhead(w.s, v.s)
    ensures Alikes(WorldSteps(z, w, hs), WorldNext(z, v, h), key, r)
    ensures NoneAhead(WorldSteps(z, w, hs).s, WorldNext(z, v, h).s)
  {
    if h.Base? {
      var es := StepFollows(z, w.s, v.s, key, r, h.e);
      hs := Lift(es);
      LiftSteps(z, w, es);
    } else {
      hs := [h];
      WorldOneStep(z, w, h);
      LookupAlike(z, w, v, key, r, h);
    }
  }

  lemma {:induction false} WorldFollows(z: bool, w: World, v: World, key: Key, r: Row, more: seq<Happening>)
    returns (hs: seq<Happening>)
    requires Alikes(w, v, key, r) && NoneAhead(w.s, v.s)
    ensures SameTold(WorldSteps(z, w, hs), WorldSteps(z, v, more))
    decreases |more|
  {
    if more == [] {
      hs := [];
    } else {
      var first := HappeningFollows(z, w, v, key, r, more[0]);
      var rest := WorldFollows(z, WorldSteps(z, w, first), WorldNext(z, v, more[0]), key, r, more[1..]);
      hs := first + rest;
      WorldStepsConcat(z, w, first, rest);
    }
  }

  /** And the other way round. */
  lemma HappeningFollowed(z: bool, w: World, v: World, key: Key, r: Row, h: Happening) returns (hs: seq<Happening>)
    requires Alikes(w, v, key, r) && NoneLost(w.s, v.s, key)
    ensures Alikes(WorldNext(z, w, h), WorldSteps(z, v, hs), key, r)
    ensures NoneLost(WorldNext(z, w, h).s, WorldSteps(z, v, hs).s, key)
  {
    if h.Base? {
      var es := StepFollowed(z, w.s, v.s, key, r, h.e);
      hs := Lift(es);
      LiftSteps(z, v, es);
    } else {
      hs := [h];
      WorldOneStep(z, v, h);
      LookupAlike(z, w, v, key, r, h);
    }
  }

  lemma {:induction false} WorldFollowed(z: bool, w: World, v: World, key: Key, r: Row, more: seq<Happening>)
    returns (hs: seq<Happening>)
    requires Alikes(w, v, key, r) && NoneLost(w.s, v.s, key)
    ensures SameTold(WorldSteps(z, v, hs), WorldSteps(z, w, more))
    decreases |more|
  {
    if more == [] {
      hs := [];
    } else {
      var first := HappeningFollowed(z, w, v, key, r, more[0]);
      var rest := WorldFollowed(z, WorldNext(z, w, more[0]), WorldSteps(z, v, first), key, r, more[1..]);
      hs := first + rest;
      WorldStepsConcat(z, v, first, rest);
    }
  }

  // ---------------------------------------------------------------------------------
  // Main result
  // ---------------------------------------------------------------------------------

  predicate Purgeable(s: State, key: Key) {
    key in s.committed && s.committed[key].expiresAt < s.clock && !Touched(s, key)
  }

  /** An open request for the key read its clock while the row was live. */
  predicate OldReader(s: State, key: Key)
    requires key in s.committed
  {
    exists t | t in s.open :: s.open[t].key == key && s.open[t].now < s.committed[key].expiresAt
  }

  /** The requests have the same answers, the lookups told the same, in the same order. */
  predicate SameTold(w: World, v: World) {
    w.s.answers == v.s.answers && w.told == v.told
  }

  ghost predicate CanTell(z: bool, w: World, goal: World) {
    exists hs :: SameTold(WorldSteps(z, w, hs), goal)
  }

  /** Whatever one world can go on to tell its callers, the other can too. */
  ghost predicate Matches(z: bool, w: World, v: World) {
    forall more :: CanTell(z, v, WorldSteps(z, w, more))
  }

  lemma PurgedIsAlike(z: bool, w: World, key: Key)
    requires Inv(w.s) && FreshRows(w.s) && Purgeable(w.s, key) && !OldReader(w.s, key)
    ensures var v := WorldNext(z, w, Base(Purge(key)));
      Alikes(w, v, key, w.s.committed[key]) && NoneAhead(w.s, v.s) && NoneLost(w.s, v.s, key)
  {
    var v, r := WorldNext(z, w, Base(Purge(key))), w.s.committed[key];
    StepKeepsInv(z, w.s, Purge(key));
    assert w.s.committed == v.s.committed[key := r];
    assert Rel(true, w.s, v.s, key, r);
  }

  lemma PurgeUnseen(z: bool, w: World, key: Key)
    requires Inv(w.s) && FreshRows(w.s) && Purgeable(w.s, key) && !OldReader(w.s, key)
    ensures var v := WorldNext(z, w, Base(Purge(key)));
      Matches(z, w, v) && Matches(z, v, w)
  {
    var v, r := WorldNext(z, w, Base(Purge(key))), w.s.committed[key];
    PurgedIsAlike(z, w, key);
    forall more
      ensures CanTell(z, v, WorldSteps(z, w, more))
    {
      var hs := WorldFollowed(z, w, v, key, r, more);
    }
    forall more
      ensures CanTell(z, w, WorldSteps(z, v, more))
    {
      var hs := WorldFollows(z, w, v, key, r, more);
    }
  }

  /** The purged world cannot tell the answer of a request that found the row. */
  lemma CannotTell(z: bool, v: World, key: Key, told: seq<Answer>, a: Answer, goal: World)
    requires Inv(v.s) && v.s.answers == told && key !in v.s.committed
    requires goal.s.answers == told + [a] && a.key == key && !a.kind.Executed?
    ensures !CanTell(z, v, goal)
  {
    if CanTell(z, v, goal) {
      var hs :| SameTold(WorldSteps(z, v, hs), goal);
      LookupsOnlyRead(z, v, hs);
      ExecutedFirstSteps(z, told, v.s, key, Requests(hs));
    }
  }

  lemma PurgeSeen(z: bool, w: World, key: Key)
    requires Inv(w.s) && FreshRows(w.s) && Purgeable(w.s, key) && OldReader(w.s, key)
    ensures !Matches(z, w, WorldNext(z, w, Base(Purge(key))))
  {
    var s, v := w.s, WorldNext(z, w, Base(Purge(key)));
    StepKeepsInv(z, s, Purge(key));
    var t :| t in s.open && s.open[t].key == key && s.open[t].now < s.committed[key].expiresAt;
    var more, a := OldReaderReads(z, s, key, t);
    LiftSteps(z, w, more);
    CannotTell(z, v, key, s.answers, a, WorldSteps(z, w, Lift(more)));
  }

  /** In every run, purging an expired row is invisible, to all requests and lookups there are
      and will be, exactly when no open request for its key read its clock before the row
      expired.  A lookup that has the row in its hands does not matter. */
  lemma PurgeInvisibleIff(z: bool, happened: seq<Happening>, key: Key)
    requires Purgeable(WorldRun(z, happened).s, key)
    ensures var w := WorldRun(z, happened); var v := WorldNext(z, w, Base(Purge(key)));
      (Matches(z, w, v) && Matches(z, v, w)) <==> !OldReader(w.s, key)
  {
    WorldReachable(z, happened);
    if OldReader(WorldRun(z, happened).s, key) {
      PurgeSeen(z, WorldRun(z, happened), key);
    } else {
      PurgeUnseen(z, WorldRun(z, happened), key);
    }
  }
}
