/**
 The idempotency service and its cleanup, as code over one table with nobody in between:
 what reserve, complete, replay and a keyed run do to the rows, why removing expired rows
 is invisible to requests that come one after another, and what the batched drain deletes.
 */
module IdempotencyStore {
  import opened Wrappers
  import opened Idempotency

  type Rows = map<Key, Row>

  datatype Reservation = Created | Pending | Refused | Replay(status: int, body: string)

  predicate Live(rows: Rows, key: Key, now: int) {
    key in rows && now < rows[key].expiresAt
  }

  /** What reserve answers: an expired row counts as absent. */
  function Reserved(rows: Rows, key: Key, hash: string, now: int): Reservation {
    if !Live(rows, key, now) then Created
    else
      var row := rows[key];
      if row.hash != hash then Refused
      else if row.status == PENDING then Pending
      else Replay(row.status, row.body)
  }

  function Expired(rows: Rows, now: int): set<Key> {
    set key | key in rows && rows[key].expiresAt < now
  }

  class Service {
    var rows: Rows
    var nextId: nat

    constructor ()
      ensures rows == map[]
    {
      rows, nextId := map[], 0;
    }

    /** Insert, or look at the row that is in the way; an expired one is deleted and the
        reservation tried again, which happens at most once. */
    method Reserve(key: Key, hash: string, expiresAt: int, now: int) returns (r: Reservation, calls: nat)
      modifies this
      ensures r == Reserved(old(rows), key, hash, now)
      ensures r.Created? <==> !Live(old(rows), key, now)
      ensures Live(old(rows), key, now) ==>
        var row := old(rows)[key];
        && (r.Refused? <==> hash != row.hash)
        && (r.Pending? <==> hash == row.hash && row.status == PENDING)
        && (r.Replay? ==> r == Replay(row.status, row.body))
      ensures r.Created? ==> rows == old(rows)[key := Row(old(nextId), hash, PENDING, PENDING_BODY, expiresAt)]
      ensures r.Created? ==> nextId == old(nextId) + 1
      ensures !r.Created? ==> rows == old(rows) && nextId == old(nextId)
      ensures calls == if key in old(rows) && !Live(old(rows), key, now) then 2 else 1
      decreases if key in rows then 1 else 0
    {
      calls := 1;
      if key !in rows {
        rows := rows[key := Row(nextId, hash, PENDING, PENDING_BODY, expiresAt)];
        nextId := nextId + 1;
        return Created, calls;
      }
      var existing := rows[key];
      if existing.expiresAt <= now {
        rows := rows - {key};
        var more: nat;
        r, more := Reserve(key, hash, expiresAt, now);
        calls := calls + more;
      } else if existing.hash != hash {
        r := Refused;
      } else if existing.status == PENDING {
        r := Pending;
      } else {
        r := Replay(existing.status, existing.body);
      }
    }

    /** Only a pending row takes the response; a finished one is never overwritten. */
    method Complete(key: Key, status: int, body: string)
      modifies this`rows
      ensures key in old(rows) && old(rows)[key].status == PENDING ==>
                rows == old(rows)[key := old(rows)[key].(status := status, body := body)]
      ensures !(key in old(rows) && old(rows)[key].status == PENDING) ==> rows == old(rows)
    {
      if key in rows && rows[key].status == PENDING {
        rows := rows[key := rows[key].(status := status, body := body)];
      }
    }

    /** One keyed run in one transaction.  The work either fails, which rolls everything
        back, or gives the body to store. */
    method RunWithIdempotency(key: Key, hash: string, now: int, status: int, work: Option<string>)
      returns (said: Reply)
      modifies this
      ensures said == Said(old(rows), Request(key, hash, status, work), now)
      ensures Same(rows, After(old(rows), Request(key, hash, status, work), now))
      ensures Live(old(rows), key, now) || work.None? ==> rows == old(rows)
      ensures !Live(old(rows), key, now) && work.Some? ==>
        && said == Response(status, work.value)
        && Stored(rows, key, hash, status, work.value, now + 24 * 60 * 60 * 1000)
    {
      var before, idBefore := rows, nextId;
      var r, _ := Reserve(key, hash, now + TTL_MS, now);
      match r {
        case Replay(s, b) => said := Response(s, b);
        case Pending => said := InFlight;
        case Refused => said := OtherPayload;
        case Created =>
          if work.None? {
            rows, nextId := before, idBefore;
            said := Failed;
          } else {
            Complete(key, status, work.value);
            said := Response(status, work.value);
          }
      }
    }

    /** The read-only fast path; it does not look at the payload. */
    method Replayed(key: Key, now: int) returns (said: Reply)
      ensures said == Said(rows, Peek(key), now)
      ensures said == if key in rows && now < rows[key].expiresAt && rows[key].status != PENDING
                      then Response(rows[key].status, rows[key].body) else NoAnswer
    {
      if key !in rows || rows[key].expiresAt <= now || rows[key].status == PENDING {
        said := NoAnswer;
      } else {
        said := Response(rows[key].status, rows[key].body);
      }
    }

    method CleanupExpired(now: int) returns (count: nat)
      modifies this`rows
      ensures rows == old(rows) - Expired(old(rows), now) && count == |Expired(old(rows), now)|
    {
      count := |Expired(rows, now)|;
      rows := rows - Expired(rows, now);
    }

    /** DELETE ... WHERE id IN (SELECT ... LIMIT batchSize): any expired rows, as many as
        there are up to the limit. */
    method DeleteExpiredBatch(batchSize: nat, now: int) returns (deleted: nat)
      modifies this`rows
      ensures deleted == if |Expired(old(rows), now)| < batchSize then |Expired(old(rows), now)| else batchSize
      ensures Trimmed(old(rows), rows, now) && (deleted == 0 ==> rows == old(rows))
      ensures |Expired(rows, now)| == |Expired(old(rows), now)| - deleted
    {
      deleted := 0;
      while deleted < batchSize && Expired(rows, now) != {}
        invariant deleted <= batchSize
        invariant Trimmed(old(rows), rows, now)
        invariant |Expired(rows, now)| == |Expired(old(rows), now)| - deleted
        invariant deleted == 0 ==> rows == old(rows)
        decreases batchSize - deleted
      {
        var key :| key in Expired(rows, now);
        assert Expired(rows - {key}, now) == Expired(rows, now) - {key};
        rows := rows - {key};
        deleted := deleted + 1;
      }
    }

    /** The cron's loop: batches until one deletes nothing. */
    method DrainExpired(batchSize: nat, now: int) returns (totalDeleted: nat)
      modifies this`rows
      ensures batchSize > 0 ==> rows == old(rows) - Expired(old(rows), now)
      ensures batchSize > 0 ==> totalDeleted == |Expired(old(rows), now)|
      ensures batchSize == 0 ==> rows == old(rows) && totalDeleted == 0
    {
      totalDeleted := 0;
      while true
        invariant Trimmed(old(rows), rows, now)
        invariant |Expired(rows, now)| == |Expired(old(rows), now)| - totalDeleted
        invariant totalDeleted == 0 ==> rows == old(rows)
        invariant batchSize == 0 ==> totalDeleted == 0
        decreases |Expired(rows, now)|
      {
        ghost var before := rows;
        var deleted := DeleteExpiredBatch(batchSize, now);
        TrimmedTransitive(old(rows), before, rows, now);
        totalDeleted := totalDeleted + deleted;
        if deleted == 0 {
          break;
        }
      }
      if batchSize > 0 {
        assert Expired(rows, now) == {};
        TrimmedToLive(old(rows), rows, now);
      }
    }
  }

  /** Some rows gone, all of them expired, and nothing else changed. */
  predicate Trimmed(before: Rows, after: Rows, now: int) {
    && after.Keys <= before.Keys
    && (forall key | key in after :: after[key] == before[key])
    && (forall key | key in before :: key in after || before[key].expiresAt < now)
  }

  lemma TrimmedTransitive(a: Rows, b: Rows, c: Rows, now: int)
    requires Trimmed(a, b, now) && Trimmed(b, c, now)
    ensures Trimmed(a, c, now)
  {
  }

  lemma TrimmedToLive(before: Rows, after: Rows, now: int)
    requires Trimmed(before, after, now) && Expired(after, now) == {}
    ensures after == before - Expired(before, now)
  {
    forall key | key in after
      ensures key !in Expired(before, now)
    {
      assert key !in Expired(after, now);
    }
  }

  // ---------------------------------------------------------------------------------
  // Requests one after another
  // ---------------------------------------------------------------------------------

  /** A cleanup removes the expired rows among some keys: all of them, or one batch. */
  datatype Op =
    | Request(key: Key, hash: string, status: int, work: Option<string>)
    | Peek(key: Key)
    | Cleanup(keys: set<Key>)

  datatype Reply = Response(status: int, body: string) | InFlight | OtherPayload | Failed | NoAnswer

  function Said(rows: Rows, op: Op, now: int): Reply {
    match op
    case Cleanup(_) => NoAnswer
    case Peek(key) =>
      var stored := Peeked(Get(rows, key), now);
      if stored.Some? then Response(stored.value.0, stored.value.1) else NoAnswer
    case Request(key, hash, status, work) =>
      match Reserved(rows, key, hash, now)
      case Replay(s, b) => Response(s, b)
      case Pending => InFlight
      case Refused => OtherPayload
      case Created => if work.None? then Failed else Response(status, work.value)
  }

  function After(rows: Rows, op: Op, now: int): Rows {
    match op
    case Peek(_) => rows
    case Cleanup(keys) => rows - Expired(rows, now) * keys
    case Request(key, hash, status, work) =>
      if Reserved(rows, key, hash, now).Created? && work.Some?
      then rows[key := Row(0, hash, status, work.value, now + TTL_MS)] else rows
  }

  function AfterAll(rows: Rows, schedule: seq<Timed>): Rows
    decreases |schedule|
  {
    if schedule == [] then rows else AfterAll(After(rows, schedule[0].op, schedule[0].at), schedule[1..])
  }

  // ---------------------------------------------------------------------------------
  // The law of a retry
  // ---------------------------------------------------------------------------------

  predicate Stored(rows: Rows, key: Key, hash: string, status: int, body: string, until: int) {
    key in rows && rows[key].(id := 0) == Row(0, hash, status, body, until)
  }

  /** Until its time is over nothing that anybody sends changes a stored response. */
  lemma {:induction false} StoredStays(rows: Rows, schedule: seq<Timed>, key: Key, hash: string, status: int, body: string,
                                       until: int)
    requires Stored(rows, key, hash, status, body, until)
    requires forall i | 0 <= i < |schedule| :: schedule[i].at < until
    ensures Stored(AfterAll(rows, schedule), key, hash, status, body, until)
    decreases |schedule|
  {
    if schedule != [] {
      StoredStays(After(rows, schedule[0].op, schedule[0].at), schedule[1..], key, hash, status, body, until);
    }
  }

  /** A request that ran and completed is the only one to run for 24 hours: whatever comes in
      between, the same payload gets its response again, another payload is turned away, the
      fast path shows the response, and none of them changes a row. */
  lemma RetryLaw(rows: Rows, key: Key, hash: string, status: int, body: string, now: int, schedule: seq<Timed>,
                 later: int, other: string, status': int, work': Option<string>)
    requires !Live(rows, key, now) && status != PENDING
    requires forall i | 0 <= i < |schedule| :: schedule[i].at < now + 24 * 60 * 60 * 1000
    requires later < now + 24 * 60 * 60 * 1000
    ensures Said(rows, Request(key, hash, status, Some(body)), now) == Response(status, body)
    ensures var rows' := AfterAll(After(rows, Request(key, hash, status, Some(body)), now), schedule);
      && Said(rows', Request(key, hash, status', work'), later) == Response(status, body)
      && After(rows', Request(key, hash, status', work'), later) == rows'
      && (other != hash ==>
            && Said(rows', Request(key, other, status', work'), later) == OtherPayload
            && After(rows', Request(key, other, status', work'), later) == rows')
      && Said(rows', Peek(key), later) == Response(status, body)
  {
    var first := After(rows, Request(key, hash, status, Some(body)), now);
    StoredStays(first, schedule, key, hash, status, body, now + TTL_MS);
  }

  /** And not for longer: a retry whose own work would answer otherwise gets the first answer
      exactly until then. */
  lemma ReplayedIff(rows: Rows, key: Key, hash: string, status: int, body: string, now: int, later: int,
                    status': int, body': string)
    requires !Live(rows, key, now) && status != PENDING && (status', body') != (status, body)
    ensures var rows' := After(rows, Request(key, hash, status, Some(body)), now);
      Said(rows', Request(key, hash, status', Some(body')), later) == Response(status, body)
      <==> later < now + 24 * 60 * 60 * 1000
  {
  }

  /** Equal up to the identities of the rows. */
  predicate Same(a: Rows, b: Rows) {
    a.Keys == b.Keys && forall key | key in a :: a[key].(id := 0) == b[key].(id := 0)
  }

  /** The same live rows. */
  predicate Agree(a: Rows, b: Rows, now: int) {
    forall key | key in a.Keys + b.Keys ::
      && (Live(a, key, now) <==> Live(b, key, now))
      && (Live(a, key, now) ==> a[key].(id := 0) == b[key].(id := 0))
  }

  datatype Timed = Timed(at: int, op: Op)

  predicate Monotone(schedule: seq<Timed>) {
    forall i, j | 0 <= i < j < |schedule| :: schedule[i].at <= schedule[j].at
  }

  /** The replies to everything but the cleanups. */
  function Replies(rows: Rows, schedule: seq<Timed>): seq<Reply>
    decreases |schedule|
  {
    if schedule == [] then []
    else
      var first := schedule[0];
      (if first.op.Cleanup? then [] else [Said(rows, first.op, first.at)])
      + Replies(After(rows, first.op, first.at), schedule[1..])
  }

  function WithoutCleanups(schedule: seq<Timed>): seq<Timed> {
    if schedule == [] then []
    else (if schedule[0].op.Cleanup? then [] else [schedule[0]]) + WithoutCleanups(schedule[1..])
  }

  lemma AgreeStep(a: Rows, b: Rows, op: Op, now: int)
    requires Agree(a, b, now)
    ensures !op.Cleanup? ==> Said(a, op, now) == Said(b, op, now) && Agree(After(a, op, now), After(b, op, now), now)
    ensures op.Cleanup? ==> Agree(After(a, op, now), b, now)
  {
    if !op.Cleanup? {
      assert op.key in a.Keys + b.Keys <==> op.key in a || op.key in b;
    }
  }

  lemma AgreeLater(a: Rows, b: Rows, now: int, later: int)
    requires Agree(a, b, now) && now <= later
    ensures Agree(a, b, later)
  {
    forall key | key in a.Keys + b.Keys
      ensures (Live(a, key, later) <==> Live(b, key, later))
           && (Live(a, key, later) ==> a[key].(id := 0) == b[key].(id := 0))
    {
      assert Live(a, key, now) <==> Live(b, key, now);
    }
  }

  lemma {:induction false} CleanupsInvisibleFrom(a: Rows, b: Rows, schedule: seq<Timed>, now: int)
    requires Monotone(schedule) && Agree(a, b, now)
    requires schedule != [] ==> now <= schedule[0].at
    ensures Replies(a, schedule) == Replies(b, WithoutCleanups(schedule))
    decreases |schedule|
  {
    if schedule != [] {
      var first, rest := schedule[0], schedule[1..];
      AgreeLater(a, b, now, first.at);
      AgreeStep(a, b, first.op, first.at);
      var a' := After(a, first.op, first.at);
      if first.op.Cleanup? {
        CleanupsInvisibleFrom(a', b, rest, first.at);
        assert WithoutCleanups(schedule) == WithoutCleanups(rest);
        assert Replies(a, schedule) == Replies(a', rest);
      } else {
        CleanupsInvisibleFrom(a', After(b, first.op, first.at), rest, first.at);
        assert WithoutCleanups(schedule) == [first] + WithoutCleanups(rest);
        assert ([first] + WithoutCleanups(rest))[1..] == WithoutCleanups(rest);
      }
    }
  }

  /** With a clock that never runs back, cleanups put anywhere between requests, whole or in
      batches of whatever expired rows, change no reply of any request or fast-path lookup. */
  lemma CleanupsInvisible(rows: Rows, schedule: seq<Timed>)
    requires Monotone(schedule)
    ensures Replies(rows, schedule) == Replies(rows, WithoutCleanups(schedule))
  {
    if schedule != [] {
      CleanupsInvisibleFrom(rows, rows, schedule, schedule[0].at);
    }
  }

  /** For a request whose clock reading is older than the cleanup's, the answer changes
      exactly when the row was live for the request and expired for the cleanup. */
  lemma CleanupVisibleIff(rows: Rows, key: Key, hash: string, now: int, cleanedAt: int)
    ensures Reserved(rows - Expired(rows, cleanedAt), key, hash, now) == Reserved(rows, key, hash, now)
       <==> !(key in rows && now < rows[key].expiresAt < cleanedAt)
  {
    var cleaned := rows - Expired(rows, cleanedAt);
    assert key in cleaned <==> key in rows && !(rows[key].expiresAt < cleanedAt);
  }
}
