/**
 One keyed request of the concurrent protocol with nobody in between: it answers and leaves
 the rows as the service's code does on its table, so what is proved of every interleaving is
 proved of that code.
 */
module IdempotencyAlone {
  import opened Wrappers
  import opened Idempotency
  import Cleanup = IdempotencyCleanup
  import Store = IdempotencyStore

  /** The statements of a reservation in the order of the code; those that do not apply find
      themselves disabled. */
  function Reserving(t: TxId, key: Key, hash: string): seq<Event> {
    [Start(t, key, hash, None), Insert(t), Find(t), Delete(t), Insert(t)]
  }

  /** The work, its response and the commit, or the rollback. */
  function Finishing(t: TxId, status: int, work: Option<string>): seq<Event> {
    if work.Some? then [Work(t, status, work.value), Commit(t)] else [Abort(t)]
  }

  function Begun(s: State, key: Key, hash: string): Tx {
    Tx(key, hash, s.clock, s.clock + TTL_MS, Untouched, Inserting)
  }

  /** The key is reserved. */
  function Holding(s: State, t: TxId, key: Key, hash: string): State {
    Cleanup.Numbered(Cleanup.Put(s, t, Cleanup.Taken(Begun(s, key, hash), s.nextId)))
  }

  function ReplyOf(a: Answer): Store.Reply {
    match a.kind
    case Executed => Store.Response(a.status, a.body)
    case Replayed => Store.Response(a.status, a.body)
    case Mismatch => Store.OtherPayload
    case Conflict => Store.InFlight
  }

  /** One answer more, which says this; or none, where the work failed. */
  predicate Tells(before: seq<Answer>, after: seq<Answer>, key: Key, hash: string, said: Store.Reply) {
    if said.Failed? then after == before
    else
      && |after| == |before| + 1 && after[..|before|] == before
      && after[|before|].key == key && after[|before|].hash == hash && ReplyOf(after[|before|]) == said
  }

  lemma FiveSteps(z: bool, s: State, es: seq<Event>)
    requires |es| == 5
    ensures Steps(z, s, es)
         == Next(z, Next(z, Next(z, Next(z, Next(z, s, es[0]), es[1]), es[2]), es[3]), es[4])
  {
    TwoSteps(z, s, es);
    TwoSteps(z, Next(z, Next(z, s, es[0]), es[1]), es[2..]);
    assert es[2..][2..] == [es[4]];
    OneStep(z, Next(z, Next(z, Next(z, Next(z, s, es[0]), es[1]), es[2]), es[3]), es[4]);
  }

  lemma ReserveFree(z: bool, s: State, t: TxId, key: Key, hash: string)
    requires t !in s.open && !Touched(s, key) && key !in s.committed
    ensures Steps(z, s, Reserving(t, key, hash)) == Holding(s, t, key, hash)
  {
    var tx, held := Begun(s, key, hash), Holding(s, t, key, hash);
    var begun := Cleanup.Put(s, t, tx);
    FiveSteps(z, s, Reserving(t, key, hash));
    Cleanup.NextIsMove(z, begun, Insert(t));
    Cleanup.PutPut(s, t, tx, Cleanup.Taken(tx, s.nextId));
    Cleanup.StepStay(z, held, Find(t));
    Cleanup.StepStay(z, held, Delete(t));
    Cleanup.StepStay(z, held, Insert(t));
  }

  lemma ReserveExpired(z: bool, s: State, t: TxId, key: Key, hash: string)
    requires t !in s.open && !Touched(s, key) && key in s.committed && s.committed[key].expiresAt <= s.clock
    ensures Steps(z, s, Reserving(t, key, hash)) == Holding(s, t, key, hash)
  {
    var tx, row := Begun(s, key, hash), s.committed[key];
    var finding, deleting := tx.(phase := Finding), tx.(phase := Deleting(row));
    var deleted := tx.(overlay := Deleted, phase := Inserting);
    FiveSteps(z, s, Reserving(t, key, hash));
    Cleanup.StepGo(z, Cleanup.Put(s, t, tx), Insert(t), finding);
    Cleanup.PutPut(s, t, tx, finding);
    Cleanup.StepGo(z, Cleanup.Put(s, t, finding), Find(t), deleting);
    Cleanup.PutPut(s, t, finding, deleting);
    Cleanup.StepGo(z, Cleanup.Put(s, t, deleting), Delete(t), deleted);
    Cleanup.PutPut(s, t, deleting, deleted);
    Cleanup.NextIsMove(z, Cleanup.Put(s, t, deleted), Insert(t));
    Cleanup.PutPut(s, t, deleted, Cleanup.Taken(tx, s.nextId));
  }

  /** What a live row answers. */
  function Found(s: State, key: Key, hash: string): Answer
    requires key in s.committed
  {
    var row := s.committed[key];
    var kind := if row.hash != hash then Mismatch else if row.status == PENDING then Conflict else Replayed;
    Answer(kind, key, hash, row.status, row.body, row.expiresAt, s.clock)
  }

  lemma ReserveLive(z: bool, s: State, t: TxId, key: Key, hash: string)
    requires t !in s.open && !Touched(s, key) && key in s.committed && s.clock < s.committed[key].expiresAt
    ensures Steps(z, s, Reserving(t, key, hash)) == s.(answers := s.answers + [Found(s, key, hash)])
  {
    var tx := Begun(s, key, hash);
    var finding := tx.(phase := Finding);
    FiveSteps(z, s, Reserving(t, key, hash));
    Cleanup.StepGo(z, Cleanup.Put(s, t, tx), Insert(t), finding);
    Cleanup.PutPut(s, t, tx, finding);
    Cleanup.NextIsMove(z, Cleanup.Put(s, t, finding), Find(t));
    assert Cleanup.Put(s, t, finding).open - {t} == s.open;
  }

  /** What a request that holds its key does in the end. */
  lemma FinishHolding(z: bool, s: State, t: TxId, key: Key, hash: string, status: int, work: Option<string>)
    requires t !in s.open && (z || status != PENDING)
    ensures var s' := Steps(z, Holding(s, t, key, hash), Finishing(t, status, work));
      && s'.open == s.open && s'.clock == s.clock
      && if work.None? then s'.committed == s.committed && s'.answers == s.answers
         else
           var row := Row(s.nextId, hash, status, work.value, s.clock + TTL_MS);
           && s'.committed == s.committed[key := row]
           && s'.answers == s.answers + [Answer(Executed, key, hash, status, work.value, row.expiresAt, s.clock)]
  {
    var held := Holding(s, t, key, hash);
    assert held.open - {t} == s.open;
    if work.None? {
      OneStep(z, held, Abort(t));
    } else {
      var row := Row(s.nextId, hash, status, work.value, s.clock + TTL_MS);
      var worked := held.open[t].(overlay := Inserted(row), phase := Completed);
      TwoSteps(z, held, Finishing(t, status, work));
      Cleanup.StepGo(z, held, Work(t, status, if work.Some? then work.value else ""), worked);
      Cleanup.NextIsMove(z, Cleanup.Put(held, t, worked), Commit(t));
      assert Cleanup.Put(held, t, worked).open - {t} == s.open;
    }
  }

  /** A request that has its answer takes no more part. */
  lemma FinishAnswered(z: bool, s: State, t: TxId, status: int, work: Option<string>)
    requires t !in s.open
    ensures Steps(z, s, Finishing(t, status, work)) == s
  {
    if work.None? {
      OneStep(z, s, Abort(t));
      assert s.open - {t} == s.open;
    } else {
      TwoSteps(z, s, Finishing(t, status, work));
    }
  }

  /** One undisturbed request says what the service's method says, leaves the rows the method
      leaves, and leaves everybody else alone. */
  lemma RequestAlone(z: bool, s: State, t: TxId, key: Key, hash: string, status: int, work: Option<string>)
    requires t !in s.open && !Touched(s, key) && (z || status != PENDING)
    ensures var s' := Steps(z, s, Reserving(t, key, hash) + Finishing(t, status, work));
      var op := Store.Request(key, hash, status, work);
      && s'.open == s.open && s'.clock == s.clock
      && Store.Same(s'.committed, Store.After(s.committed, op, s.clock))
      && Tells(s.answers, s'.answers, key, hash, Store.Said(s.committed, op, s.clock))
  {
    StepsConcat(z, s, Reserving(t, key, hash), Finishing(t, status, work));
    if Store.Live(s.committed, key, s.clock) {
      ReserveLive(z, s, t, key, hash);
      FinishAnswered(z, s.(answers := s.answers + [Found(s, key, hash)]), t, status, work);
    } else {
      if key in s.committed {
        ReserveExpired(z, s, t, key, hash);
      } else {
        ReserveFree(z, s, t, key, hash);
      }
      FinishHolding(z, s, t, key, hash, status, work);
    }
  }

  /** So a keyed run after any run of the protocol, on a key with a live execution and with
      nobody at it, replays that execution or is turned away. */
  lemma RetryAlone(events: seq<Event>, i: nat, hash: string, status: int, work: Option<string>)
    requires var s := Run(false, events);
      && i < |s.answers| && s.answers[i].kind.Executed? && s.clock < s.answers[i].expiresAt
      && !Touched(s, s.answers[i].key)
    ensures var s := Run(false, events); var a := s.answers[i];
      Store.Said(s.committed, Store.Request(a.key, hash, status, work), s.clock)
        == if hash == a.hash then Store.Response(a.status, a.body) else Store.OtherPayload
  {
    Reachable(false, events);
    NeverPending(events);
    assert Settled(Run(false, events), Run(false, events).answers[i]);
  }
}
