/** Deliveries: the retry schedule and the table that is also the job queue. */
module Deliveries {
  import opened Wrappers

  /** Nanoseconds. */
  type Time = int

  const SECOND: Time := 1_000_000_000
  const MINUTE: Time := 60 * SECOND
  const HOUR: Time := 60 * MINUTE

  const DEFAULT_MAX_ATTEMPTS := 7

  datatype State = Pending | Delivering | Succeeded | Failed | Dead | Canceled

  predicate Terminal(s: State) { s == Succeeded || s == Dead || s == Canceled }

  /** What went wrong with an attempt. */
  datatype Trouble = NoTrouble | Unprepared | Blocked | Unreachable | BadStatus(code: int) | Abandoned

  datatype Delivery = Delivery(
    id: string, eventId: string, destinationId: string, url: string, state: State,
    attemptCount: int, maxAttempts: int, nextAttemptAt: Time,
    lastStatus: Option<int>, lastError: Trouble,
    lockedAt: Option<Time>, lockedBy: Option<string>, succeededAt: Option<Time>)

  datatype Attempt = Attempt(number: int, status: Option<int>, error: Trouble)

  // ---- the retry schedule ----

  const DELAYS: seq<Time> := [1 * MINUTE, 5 * MINUTE, 15 * MINUTE, 1 * HOUR, 6 * HOUR, 24 * HOUR]

  const JITTER: real := 0.1

  /** Varies a delay by the given share of a tenth of it, but never below a second. */
  function ApplyJitter(base: Time, share: real): Time {
    var delay := (base as real + share * (base as real * JITTER)).Floor;
    if delay < SECOND then SECOND else delay
  }

  function BaseDelay(attempt: int): Time {
    var a := if attempt < 1 then 1 else attempt;
    DELAYS[if a - 1 >= |DELAYS| then |DELAYS| - 1 else a - 1]
  }

  predicate Share(u: real) { -1.0 <= u < 1.0 }

  function RetryDelay(attempt: int, share: real): Time {
    ApplyJitter(BaseDelay(attempt), share)
  }

  /** Jitter moves a delay by at most a tenth, and the floor of one second is never what decides. */
  lemma JitterIsBounded(attempt: int, share: real)
    requires Share(share)
    ensures var base := BaseDelay(attempt);
      base - base / 10 <= RetryDelay(attempt, share) <= base + base / 10
      && RetryDelay(attempt, share) == (base as real + share * (base as real * JITTER)).Floor
  {
    var base := BaseDelay(attempt);
    assert base >= MINUTE;
    assert base / 10 * 10 == base;
    var spread := base as real * JITTER;
    assert spread == (base / 10) as real;
    assert -spread <= share * spread <= spread;
    var exact := base as real + share * spread;
    assert (base - base / 10) as real <= exact <= (base + base / 10) as real;
  }

  /** The schedule backs off whatever the jitter: each wait is longer than the one before it, until
      the last step of the schedule repeats. */
  lemma BackoffGrows(attempt: int, share: real, later: real)
    requires 1 <= attempt < |DELAYS| && Share(share) && Share(later)
    ensures RetryDelay(attempt, share) < RetryDelay(attempt + 1, later)
  {
    JitterIsBounded(attempt, share);
    JitterIsBounded(attempt + 1, later);
    hide RetryDelay;
    assert attempt == 1 || attempt == 2 || attempt == 3 || attempt == 4 || attempt == 5;
  }

  // ---- what an answer is worth ----

  predicate IsSuccess(code: int) { 200 <= code < 300 }

  /** Another attempt for everything but success and the client errors that are not about timing. */
  predicate ShouldRetry(code: int) {
    if 200 <= code < 300 then false
    else if code == 408 || code == 425 || code == 429 then true
    else if 400 <= code < 500 then false
    else true
  }

  datatype Reply = NotPrepared | NoReply(blocked: bool) | Status(code: int)

  predicate Delivered(r: Reply) { r.Status? && IsSuccess(r.code) }

  predicate Retryable(r: Reply) {
    match r
    case NotPrepared => false
    case NoReply(blocked) => !blocked
    case Status(code) => ShouldRetry(code)
  }

  function Observed(d: Delivery, r: Reply): Attempt {
    match r
    case NotPrepared => Attempt(d.attemptCount + 1, None, Unprepared)
    case NoReply(blocked) => Attempt(d.attemptCount + 1, None, if blocked then Blocked else Unreachable)
    case Status(code) => Attempt(d.attemptCount + 1, Some(code), if IsSuccess(code) then NoTrouble else BadStatus(code))
  }

  // ---- the tables ----

  datatype DeliveryError = NotFound | InFlight

  /** Rows and attempts by delivery id, and the unique index over event and destination. */
  datatype Queue = Queue(
    rows: map<string, Delivery>, attempts: map<string, map<int, Attempt>>, index: map<(string, string), string>)

  const EMPTY := Queue(map[], map[], map[])

  ghost predicate Tidy(q: Queue) {
    && q.attempts.Keys == q.rows.Keys
    && (forall id :: id in q.rows ==> q.rows[id].id == id && Pair(q.rows[id]) in q.index && q.index[Pair(q.rows[id])] == id)
    && (forall pair :: pair in q.index ==> q.index[pair] in q.rows && Pair(q.rows[q.index[pair]]) == pair)
  }

  function Pair(d: Delivery): (string, string) {
    (d.eventId, d.destinationId)
  }

  function NewDelivery(id: string, eventId: string, destinationId: string, url: string, maxAttempts: int, now: Time): Delivery {
    Delivery(id, eventId, destinationId, url, Pending, 0, if maxAttempts <= 0 then DEFAULT_MAX_ATTEMPTS else maxAttempts, now,
             None, NoTrouble, None, None, None)
  }

  function Enqueued(q: Queue, d: Delivery): (r: (Queue, Delivery))
    requires Tidy(q) && d.id !in q.rows
    ensures Tidy(r.0)
  {
    if Pair(d) in q.index then (q, q.rows[q.index[Pair(d)]])
    else (Queue(q.rows[d.id := d], q.attempts[d.id := map[]], q.index[Pair(d) := d.id]), d)
  }

  predicate Due(d: Delivery, now: Time) {
    (d.state == Pending || d.state == Failed) && d.nextAttemptAt <= now
  }

  function Locked(d: Delivery, worker: string, now: Time): Delivery {
    d.(state := Delivering, lockedAt := Some(now), lockedBy := Some(worker))
  }

  function WithRow(q: Queue, d: Delivery): (q': Queue)
    requires Tidy(q) && d.id in q.rows && Pair(d) == Pair(q.rows[d.id])
    ensures Tidy(q')
  {
    q.(rows := q.rows[d.id := d])
  }

  function ClaimedOne(q: Queue, id: string, worker: string, now: Time): (q': Queue)
    requires Tidy(q) && id in q.rows
    ensures Tidy(q') && q'.rows.Keys == q.rows.Keys
  {
    q.(rows := q.rows[id := Locked(q.rows[id], worker, now)])
  }

  /** A batch claim, one row after the other. */
  function Claimed(q: Queue, due: seq<string>, worker: string, now: Time): (q': Queue)
    requires Tidy(q) && forall id :: id in due ==> id in q.rows
    ensures Tidy(q') && q'.rows.Keys == q.rows.Keys
  {
    if due == [] then q else ClaimedOne(Claimed(q, due[..|due| - 1], worker, now), due[|due| - 1], worker, now)
  }

  /** What a batch claim returns. */
  function Copies(q: Queue, due: seq<string>, worker: string, now: Time): (out: seq<Delivery>)
    requires forall id :: id in due ==> id in q.rows
    ensures |out| == |due|
  {
    seq(|due|, i requires 0 <= i < |due| => assert due[i] in due; Locked(q.rows[due[i]], worker, now))
  }

  function UnlessStale(d: Delivery, olderThan: Time, now: Time): Delivery {
    if d.state == Delivering && d.lockedAt.Some? && d.lockedAt.value < now - olderThan
    then d.(state := Failed, lockedAt := None, lockedBy := None, lastError := Abandoned, nextAttemptAt := now)
    else d
  }

  function Released(q: Queue, olderThan: Time, now: Time): (q': Queue)
    requires Tidy(q)
    ensures Tidy(q')
  {
    q.(rows := map id | id in q.rows :: UnlessStale(q.rows[id], olderThan, now))
  }

  /** The insert that keeps the first record of an attempt number. */
  function WithAttempt(attempts: map<int, Attempt>, a: Attempt): map<int, Attempt> {
    if a.number in attempts then attempts else attempts[a.number := a]
  }

  function Record(q: Queue, d: Delivery, a: Attempt): (q': Queue)
    requires Tidy(q) && d.id in q.rows && Pair(d) == Pair(q.rows[d.id])
    ensures Tidy(q')
  {
    q.(rows := q.rows[d.id := d], attempts := q.attempts[d.id := WithAttempt(q.attempts[d.id], a)])
  }

  /** Writes the stored row, found by the id of the worker's copy. */
  function SuccessRecorded(q: Queue, copy: Delivery, a: Attempt, now: Time): (r: (Queue, Result<Delivery, DeliveryError>))
    requires Tidy(q)
    ensures Tidy(r.0)
  {
    if copy.id !in q.rows then (q, Err(NotFound))
    else
      var d := q.rows[copy.id].(state := Succeeded, attemptCount := a.number, lastStatus := a.status, lastError := NoTrouble,
                                lockedAt := None, lockedBy := None, succeededAt := Some(now));
      (Record(q, d, a), Ok(d))
  }

  predicate GivesUp(copy: Delivery, a: Attempt, retry: bool) {
    !retry || a.number >= copy.maxAttempts
  }

  function FailureRecorded(q: Queue, copy: Delivery, a: Attempt, retry: bool, share: real, now: Time)
    : (r: (Queue, Result<Delivery, DeliveryError>))
    requires Tidy(q)
    ensures Tidy(r.0)
  {
    if copy.id !in q.rows then (q, Err(NotFound))
    else
      var dead := GivesUp(copy, a, retry);
      var d := q.rows[copy.id].(state := if dead then Dead else Failed, attemptCount := a.number,
                                lastStatus := a.status, lastError := a.error,
                                nextAttemptAt := if dead then now else now + RetryDelay(a.number, share),
                                lockedAt := None, lockedBy := None);
      (Record(q, d, a), Ok(d))
  }

  function Retried(q: Queue, id: string, now: Time): (r: (Queue, Result<Delivery, DeliveryError>))
    requires Tidy(q)
    ensures Tidy(r.0)
  {
    if id !in q.rows then (q, Err(NotFound))
    else if q.rows[id].state == Delivering then (q, Err(InFlight))
    else
      var d := q.rows[id].(state := Pending, attemptCount := 0, nextAttemptAt := now, lockedAt := None, lockedBy := None,
                           lastError := NoTrouble);
      (WithRow(q, d), Ok(d))
  }

  /** One delivery processed from the worker's copy: what the answer was decides what is recorded. */
  function Processed(q: Queue, copy: Delivery, r: Reply, share: real, now: Time): (q': Queue)
    requires Tidy(q)
    ensures Tidy(q')
  {
    if Delivered(r) then SuccessRecorded(q, copy, Observed(copy, r), now).0
    else FailureRecorded(q, copy, Observed(copy, r), Retryable(r), share, now).0
  }

  /** The waits are 1, 5 and 15 minutes, then 1, 6 and 24 hours, and 24 hours ever after, each spread over a
      tenth to either side. */
  lemma Schedule(attempt: int, share: real)
    requires Share(share)
    ensures var minutes := if attempt <= 1 then 1 else if attempt == 2 then 5 else if attempt == 3 then 15
                           else if attempt == 4 then 60 else if attempt == 5 then 360 else 1440;
      var wait := minutes * 60_000_000_000;
      wait - wait / 10 <= RetryDelay(attempt, share) <= wait + wait / 10
      && RetryDelay(attempt, 0.0) == wait && RetryDelay(attempt, -1.0) == wait - wait / 10 && RetryDelay(attempt, 0.5) == wait + wait / 20
  {
    JitterIsBounded(attempt, share);
    JitterIsBounded(attempt, 0.0);
    JitterIsBounded(attempt, -1.0);
    JitterIsBounded(attempt, 0.5);
    hide RetryDelay;
  }

  lemma UnpreparedIsNotRetried()
    ensures !Delivered(NotPrepared) && !Retryable(NotPrepared)
  {
  }

  /** The rows a claim may take: distinct, due, and no more than asked for.  Rows another claim holds
      locked are skipped, so which of the due rows are taken is not fixed. */
  ghost predicate IsDueList(q: Queue, due: seq<string>, limit: int, now: Time) {
    && |due| <= (if limit <= 0 then 0 else limit)
    && (forall id :: id in due ==> id in q.rows && Due(q.rows[id], now))
    && (forall i, j :: 0 <= i < j < |due| ==> due[i] != due[j])
  }

  /** What a claim leaves: the chosen rows being delivered, locked by the worker from now on, the others as
      they were. */
  lemma {:induction false} ClaimedRows(q: Queue, due: seq<string>, worker: string, now: Time, id: string)
    requires Tidy(q) && (forall k :: k in due ==> k in q.rows) && id in q.rows
    requires forall i, j :: 0 <= i < j < |due| ==> due[i] != due[j]
    ensures Claimed(q, due, worker, now).rows[id] == if id in due then Locked(q.rows[id], worker, now) else q.rows[id]
    ensures Locked(q.rows[id], worker, now) == q.rows[id].(state := Delivering, lockedAt := Some(now), lockedBy := Some(worker))
    ensures Claimed(q, due, worker, now).attempts == q.attempts && Claimed(q, due, worker, now).index == q.index
  {
    assert Locked(q.rows[id], worker, now) == q.rows[id].(state := Delivering, lockedAt := Some(now), lockedBy := Some(worker));
    hide Tidy, Locked;
    if due != [] {
      var shorter, last := due[..|due| - 1], due[|due| - 1];
      assert due == shorter + [last] && last !in shorter;
      ClaimedRows(q, shorter, worker, now, id);
    }
  }

  /** The first `i` rows have been claimed. */
  ghost predicate ClaimedSoFar(q: Queue, out: seq<Delivery>, before: Queue, due: seq<string>, i: nat, worker: string, now: Time) {
    && Tidy(before) && i <= |due| && (forall id :: id in due[..i] ==> id in before.rows)
    && q == Claimed(before, due[..i], worker, now) && out == Copies(before, due[..i], worker, now)
  }

  lemma ClaimedNone(q: Queue, due: seq<string>, limit: int, worker: string, now: Time)
    requires Tidy(q) && IsDueList(q, due, limit, now)
    ensures (forall id :: id in due ==> id in q.rows) && ClaimedSoFar(q, [], q, due, 0, worker, now)
  {
  }

  lemma ClaimedMore(q: Queue, out: seq<Delivery>, before: Queue, due: seq<string>, limit: int, i: nat, worker: string, now: Time)
    requires Tidy(before) && IsDueList(before, due, limit, now) && i < |due|
    requires ClaimedSoFar(q, out, before, due, i, worker, now)
    ensures due[i] in q.rows
    ensures var d := Locked(q.rows[due[i]], worker, now);
      ClaimedSoFar(q.(rows := q.rows[due[i] := d]), out + [d], before, due, i + 1, worker, now)
  {
    hide Tidy, Locked, Due;
    var shorter, longer := due[..i], due[..i + 1];
    assert due[i] in due && due[i] !in shorter;
    assert longer[..i] == shorter && longer[i] == due[i] && longer != [];
    ClaimedRows(before, shorter, worker, now, due[i]);
  }

  lemma ClaimedAll(q: Queue, out: seq<Delivery>, before: Queue, due: seq<string>, limit: int, worker: string, now: Time)
    requires Tidy(before) && IsDueList(before, due, limit, now) && ClaimedSoFar(q, out, before, due, |due|, worker, now)
    ensures (forall id :: id in due ==> id in before.rows)
    ensures q == Claimed(before, due, worker, now) && out == Copies(before, due, worker, now)
  {
    assert due[..|due|] == due;
    hide Tidy, Claimed, Copies;
  }

  // ---- the repository ----

  class Repository {
    var rows: map<string, Delivery>
    var attempts: map<string, map<int, Attempt>>
    var index: map<(string, string), string>

    ghost function State(): Queue
      reads this
    {
      Queue(rows, attempts, index)
    }

    ghost predicate Valid()
      reads this
    {
      Tidy(State())
    }

    constructor ()
      ensures Valid() && State() == EMPTY
    {
      rows, attempts, index := map[], map[], map[];
    }

    method Enqueue(id: string, eventId: string, destinationId: string, url: string, maxAttempts: int, now: Time)
      returns (d: Delivery)
      requires Valid() && id !in rows
      modifies this
      ensures (State(), d) == Enqueued(old(State()), NewDelivery(id, eventId, destinationId, url, maxAttempts, now))
    {
      d := NewDelivery(id, eventId, destinationId, url, maxAttempts, now);
      if Pair(d) in index {
        d := rows[index[Pair(d)]];
        return;
      }
      rows := rows[id := d];
      attempts := attempts[id := map[]];
      index := index[Pair(d) := id];
    }

    /** `due` is what the claiming query selected. */
    method Claim(worker: string, due: seq<string>, limit: int, now: Time) returns (out: seq<Delivery>)
      requires Valid() && IsDueList(State(), due, limit, now)
      modifies this`rows
      ensures State() == Claimed(old(State()), due, worker, now)
      ensures |out| == |due| && (forall id :: id in due ==> id in old(rows))
      ensures out == Copies(old(State()), due, worker, now)
    {
      out := [];
      ghost var before := State();
      ClaimedNone(before, due, limit, worker, now);
      hide Tidy, Locked, IsDueList, ClaimedSoFar, Copies, Claimed;
      for i := 0 to |due|
        invariant ClaimedSoFar(State(), out, before, due, i, worker, now)
      {
        ClaimedMore(State(), out, before, due, limit, i, worker, now);
        var d := Locked(rows[due[i]], worker, now);
        rows := rows[due[i] := d];
        out := out + [d];
      }
      ClaimedAll(State(), out, before, due, limit, worker, now);
    }

    method ReleaseStale(olderThan: Time, now: Time)
      requires Valid()
      modifies this`rows
      ensures State() == Released(old(State()), olderThan, now)
      ensures forall id :: id in rows && rows[id].state == Delivering && rows[id].lockedAt.Some? ==>
        now - olderThan <= rows[id].lockedAt.value && rows[id] == old(rows)[id]
    {
      rows := map id | id in rows :: UnlessStale(rows[id], olderThan, now);
    }

    method InsertAttempt(id: string, a: Attempt)
      requires id in attempts
      modifies this`attempts
      ensures attempts == old(attempts)[id := WithAttempt(old(attempts)[id], a)]
    {
      if a.number !in attempts[id] {
        attempts := attempts[id := attempts[id][a.number := a]];
      }
    }

    method RecordSuccess(copy: Delivery, a: Attempt, now: Time) returns (r: Result<Delivery, DeliveryError>)
      requires Valid()
      modifies this
      ensures (State(), r) == SuccessRecorded(old(State()), copy, a, now)
    {
      if copy.id !in rows {
        return Err(NotFound);
      }
      InsertAttempt(copy.id, a);
      var d := rows[copy.id].(state := Succeeded, attemptCount := a.number, lastStatus := a.status, lastError := NoTrouble,
                              lockedAt := None, lockedBy := None, succeededAt := Some(now));
      rows := rows[copy.id := d];
      return Ok(d);
    }

    method RecordFailure(copy: Delivery, a: Attempt, retry: bool, share: real, now: Time)
      returns (r: Result<Delivery, DeliveryError>)
      requires Valid()
      modifies this
      ensures (State(), r) == FailureRecorded(old(State()), copy, a, retry, share, now)
    {
      var state, next := Failed, now + RetryDelay(a.number, share);
      if !retry || a.number >= copy.maxAttempts {
        state, next := Dead, now;
      }
      if copy.id !in rows {
        return Err(NotFound);
      }
      InsertAttempt(copy.id, a);
      var d := rows[copy.id].(state := state, attemptCount := a.number, lastStatus := a.status, lastError := a.error,
                              nextAttemptAt := next, lockedAt := None, lockedBy := None);
      rows := rows[copy.id := d];
      return Ok(d);
    }

    method Retry(id: string, now: Time) returns (r: Result<Delivery, DeliveryError>)
      requires Valid()
      modifies this`rows
      ensures (State(), r) == Retried(old(State()), id, now)
    {
      if id !in rows {
        return Err(NotFound);
      }
      if rows[id].state == Delivering {
        return Err(InFlight);
      }
      var d := rows[id].(state := Pending, attemptCount := 0, nextAttemptAt := now, lockedAt := None, lockedBy := None,
                         lastError := NoTrouble);
      rows := rows[id := d];
      return Ok(d);
    }
  }

  class Worker {
    const repo: Repository
    const id: string

    constructor (repo: Repository, id: string)
      ensures this.repo == repo && this.id == id
    {
      this.repo := repo;
      this.id := id;
    }

    /** Performs one attempt, `reply` being what came of preparing and sending it, and records it. */
    method Process(copy: Delivery, reply: Reply, share: real, now: Time)
      requires repo.Valid()
      modifies repo
      ensures repo.State() == Processed(old(repo.State()), copy, reply, share, now)
    {
      hide Tidy, Record, FailureRecorded, SuccessRecorded, Delivered, Retryable;
      var number := copy.attemptCount + 1;
      UnpreparedIsNotRetried();
      if reply.NotPrepared? {
        var _ := repo.RecordFailure(copy, Attempt(number, None, Unprepared), false, share, now);
        return;
      }
      var attempt := Attempt(number, None, NoTrouble);
      match reply {
        case NoReply(blocked) => attempt := attempt.(error := if blocked then Blocked else Unreachable);
        case Status(code) =>
          attempt := attempt.(status := Some(code));
          if !IsSuccess(code) {
            attempt := attempt.(error := BadStatus(code));
          }
      }
      if Delivered(reply) {
        var _ := repo.RecordSuccess(copy, attempt, now);
        return;
      }
      var _ := repo.RecordFailure(copy, attempt, Retryable(reply), share, now);
    }

    /** Claims a batch and processes it, `replies` being what came of each attempt. */
    method Drain(due: seq<string>, concurrency: int, replies: seq<Reply>, shares: seq<real>, now: Time) returns (n: nat)
      requires repo.Valid() && IsDueList(repo.State(), due, concurrency, now) && |replies| == |due| == |shares|
      modifies repo
      ensures n == |due|
      ensures repo.State() == Drained(Claimed(old(repo.State()), due, id, now), due, id, replies, shares, now)
    {
      hide Processed, Tidy;
      var claimed := repo.Claim(id, due, concurrency, now);
      ghost var held := repo.State();
      for i := 0 to |claimed|
        invariant repo.Valid()
        invariant repo.State() == Drained(held, due[..i], id, replies[..i], shares[..i], now)
      {
        assert due[..i + 1][..i] == due[..i] && replies[..i + 1][..i] == replies[..i] && shares[..i + 1][..i] == shares[..i];
        ClaimedRows(old(repo.State()), due, id, now, due[i]);
        Process(claimed[i], replies[i], shares[i], now);
      }
      assert due[..|due|] == due && replies[..|due|] == replies && shares[..|due|] == shares;
      return |claimed|;
    }
  }

  /** Each claimed row processed from its copy as claimed. */
  function Drained(held: Queue, due: seq<string>, worker: string, replies: seq<Reply>, shares: seq<real>, now: Time): (q': Queue)
    requires Tidy(held) && |replies| == |due| == |shares| && forall id :: id in due ==> id in held.rows
    ensures Tidy(q')
  {
    if due == [] then held
    else
      var n := |due| - 1;
      Processed(Drained(held, due[..n], worker, replies[..n], shares[..n], now), held.rows[due[n]], replies[n], shares[n], now)
  }
}
