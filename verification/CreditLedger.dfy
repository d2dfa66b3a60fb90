/**
 The customer credit ledger: an insert-only table of signed facts, written by any number
 of concurrent READ COMMITTED transactions.

 A deduction runs two statements: an advisory lock on a hash of the balance key, then an
 INSERT guarded by the balance that a fresh statement snapshot shows.  An issuance is a
 plain INSERT and takes no lock.  Amounts are integers in units of 1/10000.
 */
module CreditLedger {
  import opened Wrappers

  datatype Direction = Issued | Spent | Adjusted

  datatype Key = Key(company: string, customer: string, currency: string)

  datatype Row = Row(key: Key, direction: Direction, amount: int)

  type TxId = nat

  function Signed(direction: Direction, amount: int): int {
    match direction
    case Spent => -amount
    case Adjusted => -amount
    case Issued => amount
  }

  /** What the SUM(CASE ...) subquery returns for one key. */
  function Balance(rows: seq<Row>, key: Key): int {
    if rows == [] then 0
    else
      var last := rows[|rows| - 1];
      Balance(rows[..|rows| - 1], key) + if last.key == key then Signed(last.direction, last.amount) else 0
  }

  // ---------------------------------------------------------------------------------
  // The concurrent protocol
  // ---------------------------------------------------------------------------------

  /** Where a transaction is inside the guarded insert.
      Waiting occurs only in the single-statement variant. */
  datatype Phase =
    | Idle
    | Locked(key: Key)
    | Waiting(key: Key, view: seq<Row>)
    | Ready(key: Key, view: seq<Row>)

  datatype Tx = Tx(staged: seq<Row>, phase: Phase)

  datatype State = State(committed: seq<Row>, open: map<TxId, Tx>, holder: map<int, TxId>)

  datatype Event =
    | Begin(t: TxId)
    | Lock(t: TxId, key: Key)
    | Snapshot(t: TxId, key: Key)
    | GuardedInsert(t: TxId, direction: Direction, amount: int)
    | Issue(t: TxId, key: Key, amount: int)
    | Commit(t: TxId)
    | Rollback(t: TxId)

  /** The things a deployment fixes: the lock hash, which amounts callers ever issue, and
      whether the lock is its own statement that runs before the snapshot. */
  datatype Setup = Setup(hash: Key -> int, issuable: int -> bool, lockFirst: bool)

  const INITIAL := State([], map[], map[])

  predicate Grantable(c: Setup, s: State, t: TxId, key: Key) {
    c.hash(key) in s.holder ==> s.holder[c.hash(key)] == t
  }

  function Close(s: State, t: TxId): State {
    s.(open := s.open - {t}, holder := map k | k in s.holder && s.holder[k] != t :: s.holder[k])
  }

  function Acquire(c: Setup, s: State, t: TxId, tx: Tx, key: Key): State {
    if !Grantable(c, s, t, key) then s
    else if c.lockFirst && tx.phase.Idle? then
      s.(open := s.open[t := tx.(phase := Locked(key))], holder := s.holder[c.hash(key) := t])
    else if !c.lockFirst && tx.phase.Waiting? && tx.phase.key == key then
      s.(open := s.open[t := tx.(phase := Ready(key, tx.phase.view))], holder := s.holder[c.hash(key) := t])
    else s
  }

  function Look(c: Setup, s: State, t: TxId, tx: Tx, key: Key): State {
    if c.lockFirst && tx.phase == Locked(key) then
      s.(open := s.open[t := tx.(phase := Ready(key, s.committed))])
    else if !c.lockFirst && tx.phase.Idle? then
      s.(open := s.open[t := tx.(phase := Waiting(key, s.committed))])
    else s
  }

  /** The transaction after INSERT ... WHERE balance >= amount. */
  function Guarded(tx: Tx, direction: Direction, amount: int): Tx {
    if !tx.phase.Ready? || direction.Issued? then tx
    else if Balance(tx.phase.view + tx.staged, tx.phase.key) >= amount
    then Tx(tx.staged + [Row(tx.phase.key, direction, amount)], Idle)
    else tx.(phase := Idle)
  }

  function Issuing(c: Setup, tx: Tx, key: Key, amount: int): Tx {
    if c.issuable(amount) then tx.(staged := tx.staged + [Row(key, Issued, amount)]) else tx
  }

  /** One atomic step.  An event that is not enabled (a transaction still waiting for a
      lock, say) leaves the state as it is, so every list of events is a run. */
  function Next(c: Setup, s: State, e: Event): State {
    match e
    case Begin(t) => if t in s.open then s else s.(open := s.open[t := Tx([], Idle)])
    case Lock(t, key) => if t in s.open then Acquire(c, s, t, s.open[t], key) else s
    case Snapshot(t, key) => if t in s.open then Look(c, s, t, s.open[t], key) else s
    case GuardedInsert(t, direction, amount) =>
      if t in s.open then s.(open := s.open[t := Guarded(s.open[t], direction, amount)]) else s
    case Issue(t, key, amount) =>
      if t in s.open then s.(open := s.open[t := Issuing(c, s.open[t], key, amount)]) else s
    case Commit(t) => if t in s.open then Close(s.(committed := s.committed + s.open[t].staged), t) else s
    case Rollback(t) => if t in s.open then Close(s, t) else s
  }

  function Run(c: Setup, events: seq<Event>): State {
    if events == [] then INITIAL else Next(c, Run(c, events[..|events| - 1]), events[|events| - 1])
  }

  // ---------------------------------------------------------------------------------
  // The serial ledger it has to look like
  // ---------------------------------------------------------------------------------

  function At(counters: map<Key, int>, key: Key): int {
    if key in counters then counters[key] else 0
  }

  /** One row against plain counters: a deduction is accepted only when covered. */
  function Book(counters: map<Key, int>, row: Row): Option<map<Key, int>> {
    var balance := At(counters, row.key);
    if row.direction.Issued? then Some(counters[row.key := balance + row.amount])
    else if balance >= row.amount then Some(counters[row.key := balance - row.amount])
    else None
  }

  function Replay(rows: seq<Row>): Option<map<Key, int>> {
    if rows == [] then Some(map[])
    else
      match Replay(rows[..|rows| - 1])
      case None => None
      case Some(counters) => Book(counters, rows[|rows| - 1])
  }

  predicate IssuesNonNegative(rows: seq<Row>) {
    forall i | 0 <= i < |rows| :: rows[i].direction.Issued? ==> rows[i].amount >= 0
  }

  lemma {:induction false} BalanceConcat(a: seq<Row>, b: seq<Row>, key: Key)
    ensures Balance(a + b, key) == Balance(a, key) + Balance(b, key)
  {
    if b == [] {
      assert a + b == a;
    } else {
      assert (a + b)[..|a + b| - 1] == a + b[..|b| - 1];
      BalanceConcat(a, b[..|b| - 1], key);
    }
  }

  /** An accepted history leaves each counter at the SUM the guard computes. */
  lemma {:induction false} ReplayCounts(rows: seq<Row>, key: Key)
    requires Replay(rows).Some?
    ensures At(Replay(rows).value, key) == Balance(rows, key)
  {
    if rows != [] {
      ReplayCounts(rows[..|rows| - 1], key);
      ReplayCounts(rows[..|rows| - 1], rows[|rows| - 1].key);
    }
  }

  lemma {:induction false} AcceptedIsNonNegative(rows: seq<Row>, key: Key)
    requires Replay(rows).Some? && IssuesNonNegative(rows)
    ensures Balance(rows, key) >= 0
  {
    if rows != [] {
      AcceptedIsNonNegative(rows[..|rows| - 1], key);
      ReplayCounts(rows[..|rows| - 1], key);
    }
  }

  lemma ReplayAppend(rows: seq<Row>, row: Row)
    ensures Replay(rows + [row]) == if Replay(rows).None? then None else Book(Replay(rows).value, row)
  {
    assert (rows + [row])[..|rows|] == rows;
  }

  predicate NoDeduction(rows: seq<Row>, key: Key) {
    forall i | 0 <= i < |rows| :: rows[i].key == key ==> rows[i].direction.Issued?
  }

  lemma {:induction false} OnlyGrows(rows: seq<Row>, key: Key)
    requires NoDeduction(rows, key) && IssuesNonNegative(rows)
    ensures Balance(rows, key) >= 0
  {
    if rows != [] {
      OnlyGrows(rows[..|rows| - 1], key);
    }
  }

  /** Two transactions accepted after the same committed rows are accepted one after the
      other when the first deducts from no key the second deducts from. */
  lemma {:induction false} Weave(committed: seq<Row>, first: seq<Row>, second: seq<Row>)
    requires Replay(committed + first).Some? && Replay(committed + second).Some?
    requires IssuesNonNegative(first)
    requires forall i | 0 <= i < |second| :: second[i].direction.Issued? || NoDeduction(first, second[i].key)
    ensures Replay(committed + first + second).Some?
  {
    if second == [] {
      assert committed + first + second == committed + first;
    } else {
      var rest, row := second[..|second| - 1], second[|second| - 1];
      assert committed + second == committed + rest + [row];
      ReplayAppend(committed + rest, row);
      Weave(committed, first, rest);
      assert committed + first + second == committed + first + rest + [row];
      ReplayAppend(committed + first + rest, row);
      if !row.direction.Issued? {
        OnlyGrows(first, row.key);
        ReplayCounts(committed + rest, row.key);
        ReplayCounts(committed + first + rest, row.key);
        BalanceConcat(committed, rest, row.key);
        BalanceConcat(committed + first, rest, row.key);
        BalanceConcat(committed, first, row.key);
      }
    }
  }

  // ---------------------------------------------------------------------------------
  // The invariant of every reachable state
  // ---------------------------------------------------------------------------------

  predicate Holds(c: Setup, s: State, t: TxId, key: Key) {
    c.hash(key) in s.holder && s.holder[c.hash(key)] == t
  }

  /** Staged rows extend the serial history, and deductions are under this lock. */
  predicate StagedOk(c: Setup, s: State, t: TxId, staged: seq<Row>) {
    && IssuesNonNegative(staged)
    && Replay(s.committed + staged).Some?
    && (forall i | 0 <= i < |staged| :: staged[i].direction.Issued? || Holds(c, s, t, staged[i].key))
  }

  predicate PhaseOk(c: Setup, s: State, t: TxId, phase: Phase) {
    && !phase.Waiting?
    && (!phase.Idle? ==> Holds(c, s, t, phase.key))
    && (phase.Ready? ==> Balance(phase.view, phase.key) <= Balance(s.committed, phase.key))
  }

  predicate TxOk(c: Setup, s: State, t: TxId, tx: Tx) {
    StagedOk(c, s, t, tx.staged) && PhaseOk(c, s, t, tx.phase)
  }

  ghost predicate Inv(c: Setup, s: State) {
    && Replay(s.committed).Some?
    && IssuesNonNegative(s.committed)
    && (forall t | t in s.open :: TxOk(c, s, t, s.open[t]))
  }

  ghost predicate Sound(c: Setup) {
    c.lockFirst && forall amount: int :: c.issuable(amount) ==> amount >= 0
  }

  /** What another transaction's commit means for one that stays open. */
  lemma CommitKeepsOthers(c: Setup, s: State, t: TxId, u: TxId)
    requires Inv(c, s) && t in s.open && u in s.open && t != u
    ensures TxOk(c, Close(s.(committed := s.committed + s.open[t].staged), t), u, s.open[u])
  {
    var s' := Close(s.(committed := s.committed + s.open[t].staged), t);
    var mine, theirs := s.open[t].staged, s.open[u];
    assert TxOk(c, s, t, s.open[t]) && TxOk(c, s, u, theirs);
    forall key | Holds(c, s, u, key)
      ensures Holds(c, s', u, key) && NoDeduction(mine, key)
    {
    }
    Weave(s.committed, mine, theirs.staged);
    if theirs.phase.Ready? {
      OnlyGrows(mine, theirs.phase.key);
      BalanceConcat(s.committed, mine, theirs.phase.key);
    }
  }

  /** What the guard proves about the row it admits: the up-to-date ledger covers it. */
  lemma GuardCovers(committed: seq<Row>, view: seq<Row>, staged: seq<Row>, row: Row)
    requires Replay(committed + staged).Some? && Balance(view, row.key) <= Balance(committed, row.key)
    requires Balance(view + staged, row.key) >= row.amount
    ensures Replay(committed + (staged + [row])).Some?
  {
    BalanceConcat(view, staged, row.key);
    BalanceConcat(committed, staged, row.key);
    ReplayCounts(committed + staged, row.key);
    ReplayAppend(committed + staged, row);
    assert committed + (staged + [row]) == committed + staged + [row];
  }

  lemma StagedMore(c: Setup, s: State, t: TxId, staged: seq<Row>, row: Row)
    requires StagedOk(c, s, t, staged) && Replay(s.committed + (staged + [row])).Some?
    requires if row.direction.Issued? then row.amount >= 0 else Holds(c, s, t, row.key)
    ensures StagedOk(c, s, t, staged + [row])
  {
  }

  lemma GuardedInsertKeepsOwn(c: Setup, s: State, t: TxId, tx: Tx, direction: Direction, amount: int)
    requires TxOk(c, s, t, tx)
    ensures TxOk(c, s, t, Guarded(tx, direction, amount))
  {
    if tx.phase.Ready? && !direction.Issued? && Balance(tx.phase.view + tx.staged, tx.phase.key) >= amount {
      var row := Row(tx.phase.key, direction, amount);
      GuardCovers(s.committed, tx.phase.view, tx.staged, row);
      StagedMore(c, s, t, tx.staged, row);
      assert Guarded(tx, direction, amount) == Tx(tx.staged + [row], Idle);
    } else {
      assert Guarded(tx, direction, amount).staged == tx.staged;
    }
  }

  lemma IssueKeepsOwn(c: Setup, s: State, t: TxId, tx: Tx, key: Key, amount: int)
    requires Sound(c) && TxOk(c, s, t, tx)
    ensures TxOk(c, s, t, Issuing(c, tx, key, amount))
  {
    if c.issuable(amount) {
      var row := Row(key, Issued, amount);
      ReplayAppend(s.committed + tx.staged, row);
      assert s.committed + (tx.staged + [row]) == s.committed + tx.staged + [row];
      StagedMore(c, s, t, tx.staged, row);
    }
  }

  /** The same committed rows and at least the same locks keep a transaction in order. */
  lemma LocksKept(c: Setup, s: State, s': State, t: TxId, tx: Tx)
    requires TxOk(c, s, t, tx) && s'.committed == s.committed
    requires forall key :: Holds(c, s, t, key) ==> Holds(c, s', t, key)
    ensures TxOk(c, s', t, tx)
  {
  }

  /** A transaction begins with nothing staged. */
  lemma BeginKeepsInv(c: Setup, s: State, t: TxId)
    requires Inv(c, s)
    ensures Inv(c, Next(c, s, Begin(t)))
  {
    var s' := Next(c, s, Begin(t));
    forall u | u in s'.open
      ensures TxOk(c, s', u, s'.open[u])
    {
      if u in s.open {
        LocksKept(c, s, s', u, s.open[u]);
      } else {
        assert s.committed + [] == s.committed;
      }
    }
  }

  /** Lock and snapshot stage nothing. */
  lemma QuietKeepsInv(c: Setup, s: State, e: Event)
    requires c.lockFirst && Inv(c, s) && (e.Lock? || e.Snapshot?)
    ensures Inv(c, Next(c, s, e))
  {
    var s' := Next(c, s, e);
    forall u | u in s'.open
      ensures TxOk(c, s', u, s'.open[u])
    {
      LocksKept(c, s, s', u, s.open[u]);
    }
  }

  /** A rollback forgets what was staged. */
  lemma RollbackKeepsInv(c: Setup, s: State, t: TxId)
    requires Inv(c, s)
    ensures Inv(c, Next(c, s, Rollback(t)))
  {
    var s' := Next(c, s, Rollback(t));
    forall u | u in s'.open
      ensures TxOk(c, s', u, s'.open[u])
    {
      LocksKept(c, s, s', u, s.open[u]);
    }
  }

  lemma StagingKeepsInv(c: Setup, s: State, e: Event)
    requires Sound(c) && Inv(c, s) && (e.GuardedInsert? || e.Issue?)
    ensures Inv(c, Next(c, s, e))
  {
    var s' := Next(c, s, e);
    forall u | u in s'.open
      ensures TxOk(c, s', u, s'.open[u])
    {
      if u == e.t && e.Issue? {
        IssueKeepsOwn(c, s, u, s.open[u], e.key, e.amount);
      } else if u == e.t {
        GuardedInsertKeepsOwn(c, s, u, s.open[u], e.direction, e.amount);
      }
      LocksKept(c, s, s', u, s'.open[u]);
    }
  }

  lemma CommitKeepsInv(c: Setup, s: State, t: TxId)
    requires Inv(c, s) && t in s.open
    ensures Inv(c, Next(c, s, Commit(t)))
  {
    var s' := Next(c, s, Commit(t));
    assert TxOk(c, s, t, s.open[t]);
    forall u | u in s'.open
      ensures TxOk(c, s', u, s'.open[u])
    {
      CommitKeepsOthers(c, s, t, u);
    }
  }

  lemma StepKeepsInv(c: Setup, s: State, e: Event)
    requires Sound(c) && Inv(c, s)
    ensures Inv(c, Next(c, s, e))
  {
    match e
    case Commit(t) => if t in s.open { CommitKeepsInv(c, s, t); }
    case GuardedInsert(_, _, _) => StagingKeepsInv(c, s, e);
    case Issue(_, _, _) => StagingKeepsInv(c, s, e);
    case Begin(t) => BeginKeepsInv(c, s, t);
    case Rollback(t) => RollbackKeepsInv(c, s, t);
    case _ => QuietKeepsInv(c, s, e);
  }

  lemma {:induction false} Reachable(c: Setup, events: seq<Event>)
    requires Sound(c)
    ensures Inv(c, Run(c, events))
  {
    if events != [] {
      Reachable(c, events[..|events| - 1]);
      StepKeepsInv(c, Run(c, events[..|events| - 1]), events[|events| - 1]);
    }
  }

  // ---------------------------------------------------------------------------------
  // Main results
  // ---------------------------------------------------------------------------------

  /** No interleaving of any number of transactions, under any lock hash, commits a
      negative balance; nor would committing any one open transaction now. */
  lemma NeverNegative(c: Setup, events: seq<Event>, key: Key)
    requires Sound(c)
    ensures Balance(Run(c, events).committed, key) >= 0
    ensures forall t | t in Run(c, events).open ::
              Balance(Run(c, events).committed + Run(c, events).open[t].staged, key) >= 0
  {
    Reachable(c, events);
    var s := Run(c, events);
    AcceptedIsNonNegative(s.committed, key);
    forall t | t in s.open
      ensures Balance(s.committed + s.open[t].staged, key) >= 0
    {
      assert TxOk(c, s, t, s.open[t]);
      AcceptedIsNonNegative(s.committed + s.open[t].staged, key);
    }
  }

  /** The committed rows, in commit order, are a history of the serial ledger, which
      accepts every one of them and ends at the same balances. */
  lemma RefinesSerialLedger(c: Setup, events: seq<Event>, key: Key)
    requires Sound(c)
    ensures Replay(Run(c, events).committed).Some?
    ensures At(Replay(Run(c, events).committed).value, key) == Balance(Run(c, events).committed, key)
  {
    Reachable(c, events);
    ReplayCounts(Run(c, events).committed, key);
  }

  /** Whoever issues a negative amount gets it committed. */
  lemma NegativeIssueCommits(c: Setup, amount: int, key: Key) returns (events: seq<Event>)
    requires c.issuable(amount)
    ensures Balance(Run(c, events).committed, key) == amount
  {
    events := Do(c, [], Begin(0));
    assert Run(c, events).open == map[0 := Tx([], Idle)];
    events := Do(c, events, Issue(0, key, amount));
    assert [] + [Row(key, Issued, amount)] == [Row(key, Issued, amount)];
    assert Run(c, events).open == map[0 := Tx([Row(key, Issued, amount)], Idle)];
    events := Do(c, events, Commit(0));
    assert Run(c, events).committed == [Row(key, Issued, amount)];
    assert Balance([Row(key, Issued, amount)], key) == amount;
  }

  /** Issuance is unguarded, so with the lock taken first the ledger is safe exactly when
      callers never issue a negative amount. */
  lemma SafeIffIssuesNonNegative(c: Setup)
    requires c.lockFirst
    ensures (forall amount: int :: c.issuable(amount) ==> amount >= 0)
       <==> (forall events, key :: Balance(Run(c, events).committed, key) >= 0)
  {
    if forall amount: int :: c.issuable(amount) ==> amount >= 0 {
      forall events, key
        ensures Balance(Run(c, events).committed, key) >= 0
      {
        NeverNegative(c, events, key);
      }
    } else {
      var amount: int :| c.issuable(amount) && amount < 0;
      var events := NegativeIssueCommits(c, amount, Key("co", "cu", "KZT"));
    }
  }

  /** A transaction that ends, either way, frees its locks for everybody, and only a commit
      leaves rows behind. */
  lemma EndFreesLocks(c: Setup, s: State, t: TxId, u: TxId, key: Key)
    requires t in s.open && Holds(c, s, t, key)
    ensures var s' := Next(c, s, Commit(t));
      t !in s'.open && Grantable(c, s', u, key) && s'.committed == s.committed + s.open[t].staged
    ensures var s' := Next(c, s, Rollback(t));
      t !in s'.open && Grantable(c, s', u, key) && s'.committed == s.committed
  {
  }

  /** One more event at the end of a run. */
  lemma Do(c: Setup, before: seq<Event>, e: Event) returns (after: seq<Event>)
    ensures after == before + [e] && Run(c, after) == Next(c, Run(c, before), e)
  {
    after := before + [e];
    assert after[..|before|] == before;
  }

  /** A single statement takes its snapshot before it waits for the lock.  Two spends of
      the whole balance then both commit, whatever the hash. */
  lemma SnapshotBeforeLockOverdraws(hash: Key -> int, key: Key) returns (events: seq<Event>)
    ensures Balance(Run(Setup(hash, amount => amount >= 0, false), events).committed, key) == -10
  {
    var c := Setup(hash, amount => amount >= 0, false);
    var credit, debit := Row(key, Issued, 10), Row(key, Spent, 10);
    events := Do(c, [], Begin(0));
    events := Do(c, events, Issue(0, key, 10));
    events := Do(c, events, Commit(0));
    events := Do(c, events, Begin(1));
    events := Do(c, events, Begin(2));
    events := Do(c, events, Snapshot(1, key));
    events := Do(c, events, Snapshot(2, key));
    assert Balance([credit], key) == 10;
    assert Run(c, events).committed == [credit] && Run(c, events).holder == map[];
    events := SpendAlone(c, events, 1, key, [credit]);
    events := SpendAlone(c, events, 2, key, [credit]);
    assert Run(c, events).committed == [credit] + [debit] + [debit];
    BalanceConcat([credit], [debit], key);
    BalanceConcat([credit] + [debit], [debit], key);
    assert Balance([debit], key) == -10;
  }

  /** The tail of one waiting single-statement spend of 10 against an old view of 10. */
  lemma SpendAlone(c: Setup, before: seq<Event>, t: TxId, key: Key, view: seq<Row>) returns (events: seq<Event>)
    requires !c.lockFirst && t in Run(c, before).open && Run(c, before).holder == map[]
    requires Run(c, before).open[t] == Tx([], Waiting(key, view)) && Balance(view, key) == 10
    ensures Run(c, events).committed == Run(c, before).committed + [Row(key, Spent, 10)]
    ensures Run(c, events).holder == map[] && Run(c, events).open == Run(c, before).open - {t}
  {
    assert view + [] == view;
    events := Do(c, before, Lock(t, key));
    events := Do(c, events, GuardedInsert(t, Spent, 10));
    events := Do(c, events, Commit(t));
  }
}
