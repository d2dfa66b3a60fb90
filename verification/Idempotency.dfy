/**
 Keyed request execution over one table with a unique index on (company, key).

 A request is one transaction: reserve the key, do the work, store the response, commit.
 The index blocks an INSERT on a key that another open transaction has touched, and a DELETE
 waits for whoever is at the same row; reads see committed rows and the reader's own writes.
 Between any two statements other requests, crashes, the clock and the cleanup job may run.
 */
module Idempotency {
  import opened Wrappers

  const PENDING := 0
  const PENDING_BODY := "__stockflow_pending__"
  const TTL_MS := 24 * 60 * 60 * 1000

  datatype Key = Key(company: string, key: string)

  datatype Row = Row(id: nat, hash: string, status: int, body: string, expiresAt: int)

  type TxId = nat

  /** What a transaction has done, uncommitted, to the row of its key. */
  datatype Overlay = Untouched | Deleted | Inserted(row: Row)

  datatype Phase = Inserting | Finding | Deleting(row: Row) | Working | Completed

  datatype Tx = Tx(key: Key, hash: string, now: int, expiresAt: int, overlay: Overlay, phase: Phase)

  datatype Kind = Executed | Replayed | Mismatch | Conflict

  /** What one finished request told its caller, and when. */
  datatype Answer = Answer(kind: Kind, key: Key, hash: string, status: int, body: string, expiresAt: int, at: int)

  datatype State = State(committed: map<Key, Row>, open: map<TxId, Tx>, clock: int, nextId: nat, answers: seq<Answer>)

  datatype Event =
    | Start(t: TxId, key: Key, hash: string, expiresAt: Option<int>)
    | Insert(t: TxId)
    | Find(t: TxId)
    | Delete(t: TxId)
    | Work(t: TxId, status: int, body: string)
    | Commit(t: TxId)
    | Abort(t: TxId)
    | Tick(ms: nat)
    | Purge(key: Key)

  const INITIAL := State(map[], map[], 0, 0, [])

  predicate Touched(s: State, key: Key) {
    exists u | u in s.open :: s.open[u].key == key && !s.open[u].overlay.Untouched?
  }

  /** Some other open transaction has touched the row of this key. */
  predicate Blocked(s: State, t: TxId, key: Key) {
    exists u | u in s.open :: u != t && s.open[u].key == key && !s.open[u].overlay.Untouched?
  }

  function View(s: State, tx: Tx): Option<Row> {
    match tx.overlay
    case Untouched => Get(s.committed, tx.key)
    case Deleted => None
    case Inserted(row) => Some(row)
  }

  function Answered(s: State, tx: Tx, kind: Kind, row: Row): Answer {
    Answer(kind, tx.key, tx.hash, row.status, row.body, row.expiresAt, s.clock)
  }

  function Finish(s: State, t: TxId, answer: Answer): State {
    s.(open := s.open - {t}, answers := s.answers + [answer])
  }

  /** The lookup after a lost insert: gone, expired, other payload, pending or replay. */
  function Lookup(s: State, t: TxId, tx: Tx): State {
    match View(s, tx)
    case None => s.(open := s.open[t := tx.(phase := Inserting)])
    case Some(row) =>
      if row.expiresAt <= tx.now then s.(open := s.open[t := tx.(phase := Deleting(row))])
      else if row.hash != tx.hash then Finish(s, t, Answered(s, tx, Mismatch, row))
      else if row.status == PENDING then Finish(s, t, Answered(s, tx, Conflict, row))
      else Finish(s, t, Answered(s, tx, Replayed, row))
  }

  /** What the lookup without a reservation makes of the row it read. */
  function Peeked(row: Option<Row>, now: int): Option<(int, string)> {
    match row
    case Some(r) => if r.expiresAt <= now || r.status == PENDING then None else Some((r.status, r.body))
    case None => None
  }

  function Insertion(s: State, t: TxId, tx: Tx): State {
    if !tx.phase.Inserting? || Blocked(s, t, tx.key) then s
    else if View(s, tx).None? then
      var row := Row(s.nextId, tx.hash, PENDING, PENDING_BODY, tx.expiresAt);
      s.(open := s.open[t := tx.(overlay := Inserted(row), phase := Working)], nextId := s.nextId + 1)
    else s.(open := s.open[t := tx.(phase := Finding)])
  }

  /** DELETE ... WHERE id = row.id waits only while that very row is there and somebody else is
      at it; once it is gone, nothing is deleted. */
  function Deletion(s: State, t: TxId, tx: Tx): State {
    if !tx.phase.Deleting? then s
    else if Get(s.committed, tx.key) != Some(tx.phase.row) then s.(open := s.open[t := tx.(phase := Inserting)])
    else if Blocked(s, t, tx.key) then s
    else s.(open := s.open[t := tx.(overlay := Deleted, phase := Inserting)])
  }

  function Completion(zeroAllowed: bool, s: State, t: TxId, tx: Tx, status: int, body: string): State {
    if !tx.phase.Working? || !tx.overlay.Inserted? || (status == PENDING && !zeroAllowed) then s
    else
      var row := tx.overlay.row.(status := status, body := body);
      s.(open := s.open[t := tx.(overlay := Inserted(row), phase := Completed)])
  }

  function Commitment(s: State, t: TxId, tx: Tx): State {
    if !tx.phase.Completed? || !tx.overlay.Inserted? then s
    else
      Finish(s.(committed := s.committed[tx.key := tx.overlay.row]), t, Answered(s, tx, Executed, tx.overlay.row))
  }

  /** One atomic step; an event that is blocked or out of order changes nothing.  The flag
      says whether callers ever complete with the status that marks a row as pending. */
  function Next(zeroAllowed: bool, s: State, e: Event): State {
    match e
    case Start(t, key, hash, expiresAt) =>
      if t in s.open then s
      else
        var expiry := if expiresAt.Some? then expiresAt.value else s.clock + TTL_MS;
        s.(open := s.open[t := Tx(key, hash, s.clock, expiry, Untouched, Inserting)])
    case Insert(t) => if t in s.open then Insertion(s, t, s.open[t]) else s
    case Find(t) => if t in s.open && s.open[t].phase.Finding? then Lookup(s, t, s.open[t]) else s
    case Delete(t) => if t in s.open then Deletion(s, t, s.open[t]) else s
    case Work(t, status, body) => if t in s.open then Completion(zeroAllowed, s, t, s.open[t], status, body) else s
    case Commit(t) => if t in s.open then Commitment(s, t, s.open[t]) else s
    case Abort(t) => s.(open := s.open - {t})
    case Tick(ms) => s.(clock := s.clock + ms)
    case Purge(key) =>
      if key in s.committed && s.committed[key].expiresAt < s.clock && !Touched(s, key)
      then s.(committed := s.committed - {key}) else s
  }

  function Run(zeroAllowed: bool, events: seq<Event>): State {
    if events == [] then INITIAL
    else Next(zeroAllowed, Run(zeroAllowed, events[..|events| - 1]), events[|events| - 1])
  }

  // ---------------------------------------------------------------------------------
  // The invariant of every reachable state
  // ---------------------------------------------------------------------------------

  predicate Stores(row: Row, a: Answer) {
    row.hash == a.hash && row.status == a.status && row.body == a.body && row.expiresAt == a.expiresAt
  }

  /** The row of a committed execution is still there, or its time is over. */
  predicate Settled(s: State, a: Answer) {
    a.kind.Executed? ==>
      (a.key in s.committed && Stores(s.committed[a.key], a)) || a.expiresAt <= s.clock
  }

  predicate TxOk(s: State, tx: Tx) {
    && tx.now <= s.clock
    && (tx.phase.Finding? || tx.phase.Deleting? ==> tx.overlay.Untouched?)
    && (tx.phase.Deleting? ==> tx.phase.row.expiresAt <= tx.now)
    && (tx.phase.Inserting? ==> !tx.overlay.Inserted?)
    && (tx.overlay.Inserted? ==> tx.overlay.row.hash == tx.hash)
    && (!tx.overlay.Untouched? ==> Over(s, tx.key))
  }

  predicate Known(s: State, key: Key, row: Row) {
    exists i :: 0 <= i < |s.answers| && s.answers[i].kind.Executed? && s.answers[i].key == key && Stores(row, s.answers[i])
  }

  /** While an execution's row is live, the answers after it are decided by it alone. */
  predicate Decides(first: Answer, later: Answer) {
    first.kind.Executed? && later.key == first.key && later.at < first.expiresAt ==>
      if later.hash == first.hash
      then (later.kind.Replayed? || later.kind.Conflict?) && later.status == first.status && later.body == first.body
      else later.kind.Mismatch?
  }

  /** A replay repeats an execution that was answered before it. */
  predicate Repeats(answers: seq<Answer>, j: nat)
    requires j < |answers|
  {
    exists i :: 0 <= i < j && answers[i].kind.Executed? && answers[i].key == answers[j].key
                && answers[i].hash == answers[j].hash && answers[i].status == answers[j].status
                && answers[i].body == answers[j].body
  }

  predicate Exclusive(s: State) {
    forall t, u | t in s.open && u in s.open && s.open[t].key == s.open[u].key ::
      t == u || s.open[t].overlay.Untouched? || s.open[u].overlay.Untouched?
  }

  predicate TxsOk(s: State) { forall t | t in s.open :: TxOk(s, s.open[t]) }

  predicate AllSettled(s: State) { forall i | 0 <= i < |s.answers| :: Settled(s, s.answers[i]) }

  predicate AllKnown(s: State) { forall key | key in s.committed :: Known(s, key, s.committed[key]) }

  predicate Ordered(answers: seq<Answer>) {
    && (forall i, j | 0 <= i < j < |answers| :: Decides(answers[i], answers[j]))
    && (forall j | 0 <= j < |answers| :: answers[j].kind.Replayed? ==> Repeats(answers, j))
  }

  predicate Inv(s: State) {
    Exclusive(s) && TxsOk(s) && AllSettled(s) && AllKnown(s) && Ordered(s.answers)
  }

  /** Every execution of the key has had its time. */
  predicate Over(s: State, key: Key) {
    forall i | 0 <= i < |s.answers| ::
      s.answers[i].kind.Executed? && s.answers[i].key == key ==> s.answers[i].expiresAt <= s.clock
  }

  lemma AbsentIsOver(s: State, key: Key)
    requires AllSettled(s) && (key in s.committed ==> s.committed[key].expiresAt <= s.clock)
    ensures Over(s, key)
  {
    forall i | 0 <= i < |s.answers| && s.answers[i].kind.Executed? && s.answers[i].key == key
      ensures s.answers[i].expiresAt <= s.clock
    {
      assert Settled(s, s.answers[i]);
    }
  }

  /** A step that only moves the clock on or changes open transactions. */
  lemma TablesKept(s: State, s': State)
    requires Inv(s) && s'.committed == s.committed && s'.answers == s.answers && s'.clock >= s.clock
    ensures AllSettled(s') && AllKnown(s') && Ordered(s'.answers)
  {
    assert forall i | 0 <= i < |s.answers| :: Settled(s, s.answers[i]);
    forall key | key in s'.committed
      ensures Known(s', key, s'.committed[key])
    {
      KnownKept(s, s', key, s.committed[key]);
    }
  }

  lemma TxKept(s: State, s': State, tx: Tx)
    requires TxOk(s, tx) && s'.answers == s.answers && s'.clock >= s.clock
    ensures TxOk(s', tx)
  {
  }

  lemma InsertKeepsInv(s: State, t: TxId)
    requires Inv(s) && t in s.open
    ensures Inv(Insertion(s, t, s.open[t]))
  {
    var s' := Insertion(s, t, s.open[t]);
    var tx := s.open[t];
    TablesKept(s, s');
    assert TxOk(s, tx);
    if View(s, tx).None? && tx.overlay.Untouched? {
      AbsentIsOver(s, tx.key);
    }
    assert TxOk(s, s'.open[t]);
    forall u | u in s'.open
      ensures TxOk(s', s'.open[u])
    {
      TxKept(s, s', s'.open[u]);
    }
  }

  lemma DeleteKeepsInv(s: State, t: TxId)
    requires Inv(s) && t in s.open
    ensures Inv(Deletion(s, t, s.open[t]))
  {
    var s' := Deletion(s, t, s.open[t]);
    var tx := s.open[t];
    TablesKept(s, s');
    assert TxOk(s, tx);
    if tx.phase.Deleting? && Get(s.committed, tx.key) == Some(tx.phase.row) {
      AbsentIsOver(s, tx.key);
    }
    assert TxOk(s, s'.open[t]);
    forall u | u in s'.open
      ensures TxOk(s', s'.open[u])
    {
      TxKept(s, s', s'.open[u]);
    }
  }

  /** Adding one answer: what has to hold of it for the history to stay in order. */
  lemma AnswerKeepsOrder(answers: seq<Answer>, a: Answer)
    requires Ordered(answers)
    requires forall i | 0 <= i < |answers| :: Decides(answers[i], a)
    requires a.kind.Replayed? ==> Repeats(answers + [a], |answers|)
    ensures Ordered(answers + [a])
  {
    var longer := answers + [a];
    forall j | 0 <= j < |answers| && answers[j].kind.Replayed?
      ensures Repeats(longer, j)
    {
      assert Repeats(answers, j);
      var i :| 0 <= i < j && answers[i].kind.Executed? && answers[i].key == answers[j].key
               && answers[i].hash == answers[j].hash && answers[i].status == answers[j].status
               && answers[i].body == answers[j].body;
      assert longer[i] == answers[i];
    }
  }

  lemma KnownKept(s: State, s': State, key: Key, row: Row)
    requires Known(s, key, row) && |s.answers| <= |s'.answers| && s'.answers[..|s.answers|] == s.answers
    ensures Known(s', key, row)
  {
    var i :| 0 <= i < |s.answers| && s.answers[i].kind.Executed? && s.answers[i].key == key && Stores(row, s.answers[i]);
    assert s'.answers[i] == s.answers[i];
  }

  /** What the row answers is what its execution answered. */
  lemma LookupAnswerInOrder(s: State, tx: Tx, kind: Kind, row: Row)
    requires Inv(s) && !kind.Executed? && tx.now <= s.clock
    requires Get(s.committed, tx.key) == Some(row) && tx.now < row.expiresAt
    requires kind.Mismatch? <==> row.hash != tx.hash
    ensures Ordered(s.answers + [Answered(s, tx, kind, row)])
  {
    var a := Answered(s, tx, kind, row);
    forall i | 0 <= i < |s.answers|
      ensures Decides(s.answers[i], a)
    {
      assert Settled(s, s.answers[i]);
    }
    assert Known(s, tx.key, row);
    var i :| 0 <= i < |s.answers| && s.answers[i].kind.Executed? && s.answers[i].key == tx.key
             && Stores(row, s.answers[i]);
    assert (s.answers + [a])[i] == s.answers[i];
    AnswerKeepsOrder(s.answers, a);
  }

  /** Closing a transaction with an answer that is not an execution. */
  lemma LookupAnswerKeepsInv(s: State, t: TxId, kind: Kind, row: Row)
    requires Inv(s) && t in s.open && s.open[t].phase.Finding? && !kind.Executed?
    requires Get(s.committed, s.open[t].key) == Some(row) && s.open[t].now < row.expiresAt
    requires kind.Mismatch? <==> row.hash != s.open[t].hash
    ensures Inv(Finish(s, t, Answered(s, s.open[t], kind, row)))
  {
    var tx := s.open[t];
    var s' := Finish(s, t, Answered(s, tx, kind, row));
    assert TxOk(s, tx);
    LookupAnswerInOrder(s, tx, kind, row);
    forall key | key in s'.committed
      ensures Known(s', key, s'.committed[key])
    {
      KnownKept(s, s', key, s.committed[key]);
    }
    forall u | u in s'.open
      ensures TxOk(s', s'.open[u])
    {
      assert TxOk(s, s.open[u]);
    }
  }

  lemma FindKeepsInv(s: State, t: TxId)
    requires Inv(s) && t in s.open && s.open[t].phase.Finding?
    ensures Inv(Lookup(s, t, s.open[t]))
  {
    var tx := s.open[t];
    assert TxOk(s, tx);
    var view := View(s, tx);
    if view.None? || view.value.expiresAt <= tx.now {
      var s' := Lookup(s, t, tx);
      TablesKept(s, s');
      forall u | u in s'.open
        ensures TxOk(s', s'.open[u])
      {
        assert TxOk(s, s.open[u]);
      }
    } else {
      var row := view.value;
      LookupAnswerKeepsInv(s, t, if row.hash != tx.hash then Mismatch
                                 else if row.status == PENDING then Conflict else Replayed, row);
    }
  }

  lemma CommitKeepsInv(s: State, t: TxId)
    requires Inv(s) && t in s.open
    ensures Inv(Commitment(s, t, s.open[t]))
  {
    var tx := s.open[t];
    var s' := Commitment(s, t, tx);
    if tx.phase.Completed? && tx.overlay.Inserted? {
      assert TxOk(s, tx);
      var a := Answered(s, tx, Executed, tx.overlay.row);
      AnswerKeepsOrder(s.answers, a);
      assert s'.answers[|s.answers|] == a;
      forall key | key in s'.committed
        ensures Known(s', key, s'.committed[key])
      {
        if key != tx.key {
          KnownKept(s, s', key, s.committed[key]);
        }
      }
      forall i | 0 <= i < |s'.answers|
        ensures Settled(s', s'.answers[i])
      {
        if i < |s.answers| {
          assert Settled(s, s.answers[i]);
        }
      }
      forall u | u in s'.open
        ensures TxOk(s', s'.open[u])
      {
        assert TxOk(s, s.open[u]);
      }
    }
  }

  lemma OpenKeepsInv(z: bool, s: State, e: Event)
    requires Inv(s) && (e.Start? || e.Work?)
    ensures Inv(Next(z, s, e))
  {
    var s' := Next(z, s, e);
    TablesKept(s, s');
    forall u | u in s'.open
      ensures TxOk(s', s'.open[u])
    {
      if u in s.open {
        TxKept(s, s', s.open[u]);
      }
    }
  }

  lemma QuietKeepsInv(z: bool, s: State, e: Event)
    requires Inv(s) && (e.Abort? || e.Tick?)
    ensures Inv(Next(z, s, e))
  {
    var s' := Next(z, s, e);
    TablesKept(s, s');
    forall u | u in s'.open
      ensures TxOk(s', s'.open[u])
    {
      TxKept(s, s', s.open[u]);
    }
  }

  lemma PurgeKeepsInv(z: bool, s: State, key: Key)
    requires Inv(s)
    ensures Inv(Next(z, s, Purge(key)))
  {
    var s' := Next(z, s, Purge(key));
    forall i | 0 <= i < |s'.answers|
      ensures Settled(s', s'.answers[i])
    {
      assert Settled(s, s.answers[i]);
    }
    forall k | k in s'.committed
      ensures Known(s', k, s'.committed[k])
    {
      KnownKept(s, s', k, s.committed[k]);
    }
    forall u | u in s'.open
      ensures TxOk(s', s'.open[u])
    {
      TxKept(s, s', s.open[u]);
    }
  }

  lemma StepKeepsInv(z: bool, s: State, e: Event)
    requires Inv(s)
    ensures Inv(Next(z, s, e))
  {
    match e
    case Insert(t) => if t in s.open { InsertKeepsInv(s, t); }
    case Find(t) => if t in s.open && s.open[t].phase.Finding? { FindKeepsInv(s, t); }
    case Delete(t) => if t in s.open { DeleteKeepsInv(s, t); }
    case Commit(t) => if t in s.open { CommitKeepsInv(s, t); }
    case Purge(key) => PurgeKeepsInv(z, s, key);
    case Start(_, _, _, _) => OpenKeepsInv(z, s, e);
    case Work(_, _, _) => OpenKeepsInv(z, s, e);
    case _ => QuietKeepsInv(z, s, e);
  }

  lemma {:induction false} Reachable(z: bool, events: seq<Event>)
    ensures Inv(Run(z, events))
  {
    if events != [] {
      Reachable(z, events[..|events| - 1]);
      StepKeepsInv(z, Run(z, events[..|events| - 1]), events[|events| - 1]);
    }
  }

  // ---------------------------------------------------------------------------------
  // Main results
  // ---------------------------------------------------------------------------------

  ghost predicate NoPending(s: State) {
    && (forall key | key in s.committed :: s.committed[key].status != PENDING)
    && (forall i | 0 <= i < |s.answers| :: !s.answers[i].kind.Conflict?)
  }

  ghost predicate NothingPendingCompleted(s: State) {
    forall t | t in s.open && s.open[t].phase.Completed? && s.open[t].overlay.Inserted? ::
      s.open[t].overlay.row.status != PENDING
  }

  lemma {:induction false} NeverPending(events: seq<Event>)
    ensures NoPending(Run(false, events)) && NothingPendingCompleted(Run(false, events))
  {
    if events != [] {
      var before := events[..|events| - 1];
      NeverPending(before);
      Reachable(false, before);
      NeverPendingStep(Run(false, before), events[|events| - 1]);
    }
  }

  lemma NeverPendingStep(s: State, e: Event)
    requires Inv(s) && NoPending(s) && NothingPendingCompleted(s)
    ensures NoPending(Next(false, s, e)) && NothingPendingCompleted(Next(false, s, e))
  {
    if e.Find? && e.t in s.open {
      assert TxOk(s, s.open[e.t]);
    }
  }

  /** Exactly once, over every interleaving, crash, expiry and cleanup: once an execution
      has been answered, and until its row expires, no other execution of the same key
      commits.  A request with the same payload gets the first status and body; one with
      another payload is refused.  Nobody is ever told that the key is still in flight. */
  lemma ExactlyOnce(events: seq<Event>, i: nat, j: nat)
    requires i < j < |Run(false, events).answers|
    requires Run(false, events).answers[i].kind.Executed?
    requires Run(false, events).answers[j].key == Run(false, events).answers[i].key
    requires Run(false, events).answers[j].at < Run(false, events).answers[i].expiresAt
    ensures var first, later := Run(false, events).answers[i], Run(false, events).answers[j];
            if later.hash == first.hash
            then later.kind.Replayed? && later.status == first.status && later.body == first.body
            else later.kind.Mismatch?
  {
    Reachable(false, events);
    NeverPending(events);
    assert Decides(Run(false, events).answers[i], Run(false, events).answers[j]);
  }

  /** Replays are never invented: an earlier execution gave exactly that answer. */
  lemma ReplayHasOrigin(z: bool, events: seq<Event>, j: nat)
    requires j < |Run(z, events).answers| && Run(z, events).answers[j].kind.Replayed?
    ensures Repeats(Run(z, events).answers, j)
  {
    Reachable(z, events);
  }

  lemma Do(z: bool, before: seq<Event>, e: Event) returns (after: seq<Event>)
    ensures after == before + [e] && Run(z, after) == Next(z, Run(z, before), e)
  {
    after := before + [e];
    assert after[..|before|] == before;
  }

  /** A pending row is committed, or a caller told the key is in flight, in some run
      exactly when callers may complete with the pending status. */
  lemma PendingIffZeroStatus(zeroAllowed: bool)
    ensures (forall events :: NoPending(Run(zeroAllowed, events))) <==> !zeroAllowed
  {
    if zeroAllowed {
      var key := Key("co", "k");
      var events := Do(true, [], Start(0, key, "h", None));
      events := Do(true, events, Insert(0));
      events := Do(true, events, Work(0, PENDING, ""));
      events := Do(true, events, Commit(0));
      assert Run(true, events).committed[key].status == PENDING;
      assert !NoPending(Run(zeroAllowed, events));
    } else {
      forall events
        ensures NoPending(Run(zeroAllowed, events))
      {
        NeverPending(events);
      }
    }
  }

  /** One whole request, from its start to its commit, on an empty table. */
  lemma FirstExecution() returns (events: seq<Event>)
    ensures var key := Key("co", "k");
            Run(false, events) == State(map[key := Row(0, "h", 201, "a", 5)], map[], 0, 1,
                                        [Answer(Executed, key, "h", 201, "a", 5, 0)])
  {
    var key := Key("co", "k");
    var tx := Tx(key, "h", 0, 5, Untouched, Inserting);
    var pending := Row(0, "h", PENDING, PENDING_BODY, 5);
    var stored := Row(0, "h", 201, "a", 5);
    events := Do(false, [], Start(0, key, "h", Some(5)));
    assert Run(false, events) == INITIAL.(open := map[0 := tx]);
    events := Do(false, events, Insert(0));
    assert Run(false, events) == State(map[], map[0 := tx.(overlay := Inserted(pending), phase := Working)], 0, 1, []);
    events := Do(false, events, Work(0, 201, "a"));
    assert Run(false, events) == State(map[], map[0 := tx.(overlay := Inserted(stored), phase := Completed)], 0, 1, []);
    events := Do(false, events, Commit(0));
  }

  /** A run that leaves one expired row and one request that began before it expired. */
  lemma OldRequestAtExpiry() returns (events: seq<Event>)
    ensures var key := Key("co", "k");
            Run(false, events) == State(map[key := Row(0, "h", 201, "a", 5)],
                                        map[1 := Tx(key, "h", 0, TTL_MS, Untouched, Inserting)], 6, 1,
                                        [Answer(Executed, key, "h", 201, "a", 5, 0)])
  {
    events := FirstExecution();
    events := Do(false, events, Start(1, Key("co", "k"), "h", None));
    events := Do(false, events, Tick(6));
  }

  /** A run that goes on from a state. */
  function Steps(z: bool, s: State, events: seq<Event>): State
    decreases |events|
  {
    if events == [] then s else Steps(z, Next(z, s, events[0]), events[1..])
  }

  lemma {:induction false} StepsConcat(z: bool, s: State, a: seq<Event>, b: seq<Event>)
    ensures Steps(z, s, a + b) == Steps(z, Steps(z, s, a), b)
    decreases |a|
  {
    if a == [] {
      assert a + b == b;
    } else {
      assert (a + b)[1..] == a[1..] + b;
      StepsConcat(z, Next(z, s, a[0]), a[1..], b);
    }
  }

  lemma OneStep(z: bool, s: State, e: Event)
    ensures Steps(z, s, [e]) == Next(z, s, e)
  {
    assert [e][1..] == [];
  }

  lemma TwoSteps(z: bool, s: State, events: seq<Event>)
    requires |events| >= 2
    ensures Steps(z, s, events) == Steps(z, Next(z, Next(z, s, events[0]), events[1]), events[2..])
  {
    assert events[1..][1..] == events[2..];
  }

  lemma {:induction false} RunSteps(z: bool, before: seq<Event>, more: seq<Event>)
    ensures Run(z, before + more) == Steps(z, Run(z, before), more)
    decreases |more|
  {
    if more == [] {
      assert before + more == before;
    } else {
      var first := Do(z, before, more[0]);
      assert before + more == first + more[1..];
      RunSteps(z, first, more[1..]);
    }
  }

  /** Cleanup can be seen by a request that began before the row expired and looks after:
      without the purge it replays, with the purge it executes again. */
  lemma CleanupVisibleToOldRequest() returns (before: seq<Event>, after: seq<Event>)
    ensures var plain := Run(false, before + after);
            && |plain.answers| == 2 && plain.answers[1].kind.Replayed? && plain.answers[1].body == "a"
    ensures var purged := Run(false, before + ([Purge(Key("co", "k"))] + after));
            && |purged.answers| == 2 && purged.answers[1].kind.Executed? && purged.answers[1].body == "b"
  {
    var key := Key("co", "k");
    before := OldRequestAtExpiry();
    after := [Insert(1), Find(1), Work(1, 201, "b"), Commit(1)];
    var s := Run(false, before);
    RunSteps(false, before, after);
    OldRequestReplays(s, after);
    RunSteps(false, before, [Purge(key)] + after);
    assert ([Purge(key)] + after)[1..] == after;
    OldRowPurged(s);
    LateRequestExecutes(Next(false, s, Purge(key)), after);
  }

  lemma OldRowPurged(s: State)
    requires var key := Key("co", "k");
      s.committed == map[key := Row(0, "h", 201, "a", 5)] && s.clock == 6
      && s.open == map[1 := Tx(key, "h", 0, TTL_MS, Untouched, Inserting)]
    ensures Next(false, s, Purge(Key("co", "k"))) == s.(committed := map[])
  {
    var key := Key("co", "k");
    assert !Touched(s, key);
    assert s.committed - {key} == map[];
  }

  lemma OldRequestReplays(s: State, after: seq<Event>)
    requires var key := Key("co", "k");
      s == State(map[key := Row(0, "h", 201, "a", 5)], map[1 := Tx(key, "h", 0, TTL_MS, Untouched, Inserting)], 6, 1,
                 [Answer(Executed, key, "h", 201, "a", 5, 0)])
    requires after == [Insert(1), Find(1), Work(1, 201, "b"), Commit(1)]
    ensures var answers := Steps(false, s, after).answers;
      |answers| == 2 && answers[1].kind.Replayed? && answers[1].body == "a"
  {
    var found := Next(false, s, Insert(1));
    assert found.open[1].phase.Finding?;
    var told := Next(false, found, Find(1));
    assert told.open == map[];
    TwoSteps(false, s, after);
    TwoSteps(false, told, after[2..]);
    assert after[2..][2..] == [];
  }

  lemma LateRequestExecutes(p: State, after: seq<Event>)
    requires var key := Key("co", "k");
      p == State(map[], map[1 := Tx(key, "h", 0, TTL_MS, Untouched, Inserting)], 6, 1,
                 [Answer(Executed, key, "h", 201, "a", 5, 0)])
    requires after == [Insert(1), Find(1), Work(1, 201, "b"), Commit(1)]
    ensures var answers := Steps(false, p, after).answers;
      |answers| == 2 && answers[1].kind.Executed? && answers[1].body == "b"
  {
    var taken := Next(false, p, Insert(1));
    assert taken.open[1].phase.Working? && Next(false, taken, Find(1)) == taken;
    var worked := Next(false, taken, Work(1, 201, "b"));
    assert worked.open[1].phase.Completed?;
    TwoSteps(false, p, after);
    TwoSteps(false, taken, after[2..]);
    assert after[2..][2..] == [];
  }
}
