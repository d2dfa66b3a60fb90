/**
 The distributed job lock: SET key token EX ttl NX, and a release that deletes the key only
 if it still holds the caller's token.  Time passes, keys expire, runs stall or die, and
 some acquisitions are synthetic: the job runs with no lock at all.

 Tokens are fresh for every acquisition.
 */
module RedisLock {
  import opened Wrappers

  type Key = string

  type RunId = nat

  /** One stored lock. */
  datatype Lock = Lock(token: nat, expiresAt: int)

  /** A job that acquired its lock: when, and for how many seconds it asked. */
  datatype Job = Job(key: Key, token: nat, synthetic: bool, since: int, ttl: nat)

  datatype State = State(store: map<Key, Lock>, running: map<RunId, Job>, clock: int, nextToken: nat)

  datatype Event =
    | Acquire(run: RunId, key: Key, ttl: nat)
    | AcquireSynthetic(run: RunId, key: Key, ttl: nat)
    | Release(run: RunId)
    | LoseRelease(run: RunId)
    | Orphan(key: Key, ttl: nat)
    | Tick(seconds: nat)

  const INITIAL := State(map[], map[], 0, 0)

  /** What GET and NX see: an expired key is not there. */
  predicate Held(s: State, key: Key) {
    key in s.store && s.clock < s.store[key].expiresAt
  }

  function Grant(s: State, run: RunId, key: Key, ttl: nat): State {
    s.(store := s.store[key := Lock(s.nextToken, s.clock + ttl)],
       running := s.running[run := Job(key, s.nextToken, false, s.clock, ttl)],
       nextToken := s.nextToken + 1)
  }

  /** RELEASE_LUA */
  function Deleted(s: State, job: Job): map<Key, Lock> {
    if Held(s, job.key) && s.store[job.key].token == job.token then s.store - {job.key} else s.store
  }

  /** One atomic step.  Orphan is a SET that took effect though its caller was told of an error:
      nobody runs under that token.  A run ends by releasing, or without: it crashed or the release failed.
      Without Redis a release does nothing, which LoseRelease covers. */
  function Next(s: State, e: Event): State {
    match e
    case Acquire(run, key, ttl) =>
      if run in s.running || Held(s, key) then s else Grant(s, run, key, ttl)
    case AcquireSynthetic(run, key, ttl) =>
      if run in s.running then s
      else s.(running := s.running[run := Job(key, s.nextToken, true, s.clock, ttl)], nextToken := s.nextToken + 1)
    case Release(run) =>
      if run in s.running then s.(store := Deleted(s, s.running[run]), running := s.running - {run}) else s
    case Orphan(key, ttl) =>
      if Held(s, key) then s
      else s.(store := s.store[key := Lock(s.nextToken, s.clock + ttl)], nextToken := s.nextToken + 1)
    case LoseRelease(run) => s.(running := s.running - {run})
    case Tick(seconds) => s.(clock := s.clock + seconds)
  }

  function Run(events: seq<Event>): State {
    if events == [] then INITIAL else Next(Run(events[..|events| - 1]), events[|events| - 1])
  }

  predicate Real(s: State, run: RunId) {
    run in s.running && !s.running[run].synthetic
  }

  predicate WithinTtl(s: State, run: RunId) {
    run in s.running && s.clock < s.running[run].since + s.running[run].ttl
  }

  predicate Owns(s: State, run: RunId) {
    run in s.running && Held(s, s.running[run].key) && s.store[s.running[run].key].token == s.running[run].token
  }

  predicate TokensOk(s: State) {
    && (forall key | key in s.store :: s.store[key].token < s.nextToken)
    && (forall run | run in s.running :: s.running[run].token < s.nextToken)
    && forall a, b | a in s.running && b in s.running && a != b :: s.running[a].token != s.running[b].token
  }

  /** Within its time a real run's lock is there under its own token, to the end of that time. */
  predicate Guarded(s: State) {
    forall run | run in s.running && Real(s, run) && WithinTtl(s, run) ::
      var job := s.running[run]; Get(s.store, job.key) == Some(Lock(job.token, job.since + job.ttl))
  }

  predicate Inv(s: State) {
    TokensOk(s) && Guarded(s)
  }

  lemma AcquireKeeps(s: State, run: RunId, key: Key, ttl: nat)
    requires Inv(s) && run !in s.running && !Held(s, key)
    ensures Inv(Grant(s, run, key, ttl))
  {
    var s' := Grant(s, run, key, ttl);
    forall other | Real(s', other) && WithinTtl(s', other)
      ensures var job := s'.running[other]; Get(s'.store, job.key) == Some(Lock(job.token, job.since + job.ttl))
    {
      if other != run {
        assert Real(s, other) && WithinTtl(s, other);
      }
    }
  }

  lemma ReleaseKeeps(s: State, run: RunId)
    requires Inv(s) && run in s.running
    ensures Inv(Next(s, Release(run)))
  {
    var s' := Next(s, Release(run));
    forall other | Real(s', other) && WithinTtl(s', other)
      ensures var job := s'.running[other]; Get(s'.store, job.key) == Some(Lock(job.token, job.since + job.ttl))
    {
      assert Real(s, other) && WithinTtl(s, other);
    }
  }

  lemma OrphanKeeps(s: State, key: Key, ttl: nat)
    requires Inv(s)
    ensures Inv(Next(s, Orphan(key, ttl)))
  {
    var s' := Next(s, Orphan(key, ttl));
    forall other | Real(s', other) && WithinTtl(s', other)
      ensures var job := s'.running[other]; Get(s'.store, job.key) == Some(Lock(job.token, job.since + job.ttl))
    {
      assert Real(s, other) && WithinTtl(s, other);
    }
  }

  lemma UnlockedKeeps(s: State, e: Event)
    requires Inv(s) && (e.AcquireSynthetic? || e.LoseRelease? || e.Tick?)
    ensures Inv(Next(s, e))
  {
    var s' := Next(s, e);
    forall other | Real(s', other) && WithinTtl(s', other)
      ensures var job := s'.running[other]; Get(s'.store, job.key) == Some(Lock(job.token, job.since + job.ttl))
    {
      assert Real(s, other) && WithinTtl(s, other);
    }
  }

  lemma StepKeepsInv(s: State, e: Event)
    requires Inv(s)
    ensures Inv(Next(s, e))
  {
    match e {
      case Acquire(run, key, ttl) => if run !in s.running && !Held(s, key) { AcquireKeeps(s, run, key, ttl); }
      case Release(run) => if run in s.running { ReleaseKeeps(s, run); }
      case Orphan(key, ttl) => OrphanKeeps(s, key, ttl);
      case _ => UnlockedKeeps(s, e);
    }
  }

  lemma {:induction false} Reachable(events: seq<Event>)
    ensures Inv(Run(events))
  {
    if events != [] {
      Reachable(events[..|events| - 1]);
      StepKeepsInv(Run(events[..|events| - 1]), events[|events| - 1]);
    }
  }

  // ---------------------------------------------------------------------------------
  // Main results
  // ---------------------------------------------------------------------------------

  /** Two real runs of one job are never both within their time. */
  lemma NoTwoWithinTtl(events: seq<Event>, a: RunId, b: RunId)
    requires Real(Run(events), a) && Real(Run(events), b) && a != b
    requires Run(events).running[a].key == Run(events).running[b].key
    ensures !WithinTtl(Run(events), a) || !WithinTtl(Run(events), b)
  {
    Reachable(events);
  }

  /** However late an earlier owner releases, a real run within its time keeps its lock. */
  lemma LateReleaseKeepsSuccessor(events: seq<Event>, late: RunId, successor: RunId)
    requires Real(Run(events), successor) && WithinTtl(Run(events), successor)
    requires late in Run(events).running && late != successor
    ensures var s' := Next(Run(events), Release(late));
      Real(s', successor) && Owns(s', successor) && Held(s', s'.running[successor].key)
  {
    Reachable(events);
    StepKeepsInv(Run(events), Release(late));
    var s := Run(events);
    assert WithinTtl(s, successor);
    assert WithinTtl(Next(s, Release(late)), successor);
  }

  /** Every run so far ended within its time: no moment of the run finds one that has gone
      past it. */
  ghost predicate AllInTime(events: seq<Event>) {
    forall n, run | 0 <= n <= |events| && Real(Run(events[..n]), run) :: WithinTtl(Run(events[..n]), run)
  }

  predicate Overlap(s: State, a: RunId, b: RunId) {
    a != b && Real(s, a) && Real(s, b) && s.running[a].key == s.running[b].key
  }

  /** If every run ends within its time, no two real runs of a job ever overlap. */
  lemma InTimeMeansExclusive(events: seq<Event>, n: nat, a: RunId, b: RunId)
    requires AllInTime(events) && n <= |events|
    ensures !Overlap(Run(events[..n]), a, b)
  {
    if Overlap(Run(events[..n]), a, b) {
      NoTwoWithinTtl(events[..n], a, b);
    }
  }

  lemma OneMore(events: seq<Event>, e: Event)
    ensures Run(events + [e]) == Next(Run(events), e)
  {
    assert (events + [e])[..|events|] == events;
  }

  /** One run that goes past its time is enough to break that. */
  lemma OverlapAfterExpiry(key: Key, ttl: nat)
    ensures Overlap(Run([Acquire(0, key, ttl), Tick(ttl), Acquire(1, key, ttl)]), 0, 1)
  {
    var one, two := [Acquire(0, key, ttl)], [Acquire(0, key, ttl), Tick(ttl)];
    assert [] + one == one && one + [Tick(ttl)] == two;
    OneMore([], Acquire(0, key, ttl));
    OneMore(one, Tick(ttl));
    OneMore(two, Acquire(1, key, ttl));
    assert two + [Acquire(1, key, ttl)] == [Acquire(0, key, ttl), Tick(ttl), Acquire(1, key, ttl)];
  }

  // ---------------------------------------------------------------------------------
  // How long a granted lock lasts
  // ---------------------------------------------------------------------------------

  /** The seconds that pass in a run. */
  function Ticks(events: seq<Event>): nat {
    if events == [] then 0
    else
      var last := events[|events| - 1];
      Ticks(events[..|events| - 1]) + if last.Tick? then last.seconds else 0
  }

  /** The token is nobody else's, and a lock under it ends then. */
  predicate Marked(s: State, run: RunId, key: Key, token: nat, until: int) {
    && token < s.nextToken
    && (forall other | other in s.running && other != run :: s.running[other].token != token)
    && (key in s.store && s.store[key].token == token ==> s.store[key].expiresAt == until)
  }

  predicate HeldUnder(s: State, key: Key, token: nat) {
    Held(s, key) && s.store[key].token == token
  }

  lemma MarkedStep(s: State, run: RunId, key: Key, token: nat, until: int, e: Event)
    requires Marked(s, run, key, token, until) && e != Release(run)
    ensures Marked(Next(s, e), run, key, token, until)
    ensures HeldUnder(s, key, token) && Next(s, e).clock < until ==> HeldUnder(Next(s, e), key, token)
  {
  }

  /** Whatever happens after a lock was granted, but for its own release: it is there under its
      token while less than its time has passed, and not from then on. */
  lemma {:induction false} GrantLasts(events: seq<Event>, run: RunId, key: Key, ttl: nat, more: seq<Event>)
    requires run !in Run(events).running && !Held(Run(events), key) && Release(run) !in more
    ensures var s, s' := Run(events), Run(events + [Acquire(run, key, ttl)] + more);
      && Marked(s', run, key, s.nextToken, s.clock + ttl) && s'.clock == s.clock + Ticks(more)
      && (HeldUnder(s', key, s.nextToken) <==> Ticks(more) < ttl)
  {
    var s, granted := Run(events), events + [Acquire(run, key, ttl)];
    if more == [] {
      Reachable(events);
      OneMore(events, Acquire(run, key, ttl));
      assert granted + more == granted;
    } else {
      var init, last := more[..|more| - 1], more[|more| - 1];
      GrantLasts(events, run, key, ttl, init);
      assert granted + more == granted + init + [last];
      OneMore(granted + init, last);
      MarkedStep(Run(granted + init), run, key, s.nextToken, s.clock + ttl, last);
    }
  }

  /** Before its time is over and without its own release, nobody else gets the key. */
  lemma OthersRefused(events: seq<Event>, run: RunId, key: Key, ttl: nat, more: seq<Event>, other: RunId, time: nat)
    requires run !in Run(events).running && !Held(Run(events), key)
    requires Release(run) !in more && Ticks(more) < ttl
    ensures var s := Run(events + [Acquire(run, key, ttl)] + more); Next(s, Acquire(other, key, time)) == s
  {
    GrantLasts(events, run, key, ttl, more);
  }

  /** Nobody tries to lock the key. */
  predicate Untried(events: seq<Event>, key: Key) {
    forall e | e in events :: !(e.Acquire? && e.key == key) && !(e.Orphan? && e.key == key)
  }

  lemma {:induction false} UntriedKeeps(events: seq<Event>, more: seq<Event>, key: Key, token: nat)
    requires Untried(more, key)
    requires key in Run(events).store ==> Run(events).store[key].token == token
    ensures key in Run(events + more).store ==> Run(events + more).store[key].token == token
  {
    if more == [] {
      assert events + more == events;
    } else {
      var init, last := more[..|more| - 1], more[|more| - 1];
      assert last in more && forall e | e in init :: e in more;
      UntriedKeeps(events, init, key, token);
      assert events + more == events + init + [last];
      OneMore(events + init, last);
    }
  }

  /** The next to try gets it exactly when the whole time has passed: not one second earlier,
      and not one second later, though the first run never released. */
  lemma NextGrantedIff(events: seq<Event>, run: RunId, key: Key, ttl: nat, more: seq<Event>, other: RunId, time: nat)
    requires run !in Run(events).running && !Held(Run(events), key)
    requires Release(run) !in more && Untried(more, key)
    requires other !in Run(events + [Acquire(run, key, ttl)] + more).running
    ensures var s := Run(events + [Acquire(run, key, ttl)] + more);
      Real(Next(s, Acquire(other, key, time)), other) <==> Ticks(more) >= ttl
  {
    var s := Run(events);
    GrantLasts(events, run, key, ttl, more);
    OneMore(events, Acquire(run, key, ttl));
    UntriedKeeps(events + [Acquire(run, key, ttl)], more, key, s.nextToken);
  }

  /** A run that dies is not running any more, but its lock stays until its time is over. */
  lemma CrashKeepsLock(events: seq<Event>, run: RunId)
    requires Real(Run(events), run) && WithinTtl(Run(events), run)
    ensures run !in Next(Run(events), LoseRelease(run)).running
    ensures Held(Next(Run(events), LoseRelease(run)), Run(events).running[run].key)
  {
    Reachable(events);
    assert Get(Run(events).store, Run(events).running[run].key).Some?;
  }

  /** A run that releases within its time leaves the key free at once. */
  lemma ReleaseFrees(events: seq<Event>, run: RunId)
    requires Real(Run(events), run) && WithinTtl(Run(events), run)
    ensures Held(Run(events), Run(events).running[run].key)
    ensures !Held(Next(Run(events), Release(run)), Run(events).running[run].key)
  {
    Reachable(events);
    assert Get(Run(events).store, Run(events).running[run].key).Some?;
  }

  // ---------------------------------------------------------------------------------
  // The service
  // ---------------------------------------------------------------------------------

  /** What NX will see at some later time, if nothing else is written. */
  predicate HeldAt(store: map<Key, Lock>, key: Key, now: int) {
    key in store && now < store[key].expiresAt
  }

  datatype Acquisition = Acquired(token: nat, synthetic: bool) | Contended | Unavailable | Failed

  /** How the client stands at the moment of a call.  A command that ends in an error may have
      taken effect all the same. */
  datatype Health = Absent | Ready | Erring(ended: bool, landed: bool)

  class RedisService {
    var store: map<Key, Lock>
    var clock: int
    var nextToken: nat
    const failOpenOnError: bool

    constructor (failOpen: bool)
      ensures store == map[] && clock == 0 && nextToken == 0 && failOpenOnError == failOpen
    {
      store, clock, nextToken, failOpenOnError := map[], 0, 0, failOpen;
    }

    /** The stored locks as a state of the protocol. */
    ghost function Contents(): State
      reads this
    {
      State(store, map[], clock, nextToken)
    }

    /** A real token exactly when Redis answers and the key is free; a synthetic one when
        there is no Redis, or it errs and the deployment chose to run regardless. */
    method AcquireLock(key: Key, ttlSeconds: nat, health: Health) returns (r: Acquisition)
      modifies `store, `nextToken
      ensures store ==
        if health.Ready? then Next(old(Contents()), Acquire(0, key, ttlSeconds)).store
        else if health.Erring? && health.landed then Next(old(Contents()), Orphan(key, ttlSeconds)).store
        else old(store)
      ensures r.Acquired? && !r.synthetic ==> store == old(store)[key := Lock(r.token, clock + ttlSeconds)]
      ensures r.Acquired? && !r.synthetic ==> forall now :: now < clock + ttlSeconds <==> HeldAt(store, key, now)
      ensures health.Erring? && store != old(store) ==>
        store == old(store)[key := Lock(old(nextToken), clock + ttlSeconds)]
      ensures r.Acquired? && !r.synthetic <==> health.Ready? && !Held(old(Contents()), key)
      ensures r.Acquired? && r.synthetic <==> health.Absent? || (health.Erring? && failOpenOnError)
      ensures r.Contended? <==> health.Ready? && Held(old(Contents()), key)
      ensures r.Unavailable? <==> health.Erring? && health.ended && !failOpenOnError
      ensures r.Failed? <==> health.Erring? && !health.ended && !failOpenOnError
      ensures r.Acquired? ==> old(nextToken) <= r.token < nextToken
      ensures r.Acquired? && r.synthetic ==> forall k | k in store && k !in old(store) :: store[k].token != r.token
      ensures nextToken >= old(nextToken)
    {
      if health.Absent? {
        nextToken := nextToken + 1;
        return Acquired(nextToken - 1, true);
      }
      var token := nextToken;
      nextToken := nextToken + 1;
      var free := key !in store || clock >= store[key].expiresAt;
      if free && (health.Ready? || health.landed) {
        store := store[key := Lock(token, clock + ttlSeconds)];
      }
      if health.Ready? {
        return if free then Acquired(token, false) else Contended;
      }
      if failOpenOnError {
        nextToken := nextToken + 1;
        return Acquired(nextToken - 1, true);
      }
      return if health.ended then Unavailable else Failed;
    }

    /** Deletes the caller's own lock and no other; true exactly when Redis says so, or there is
        no Redis. */
    method ReleaseLock(key: Key, ownerToken: nat, health: Health) returns (released: bool)
      modifies `store
      ensures var own := Held(old(Contents()), key) && old(store)[key].token == ownerToken;
        && (released <==> health.Absent? || (health.Ready? && own))
        && store == if own && (health.Ready? || (health.Erring? && health.landed)) then old(store) - {key} else old(store)
    {
      if health.Absent? {
        return true;
      }
      var own := key in store && clock < store[key].expiresAt && store[key].token == ownerToken;
      if own && (health.Ready? || health.landed) {
        store := store - {key};
      }
      released := own && health.Ready?;
    }
  }
}
