/** Workers sharing the delivery queue, crashing and coming back, with operators retrying by hand. */
module DeliveryProtocol {
  import opened Wrappers
  import opened Deliveries

  /** How long a claim may sit before it is taken for abandoned. */
  const STALE_AFTER: Time := 5 * MINUTE

  /** `tasks` holds, for each attempt under way, the worker's copy of the row it claimed. */
  datatype World = World(now: Time, q: Queue, tasks: map<int, Delivery>)

  datatype Step =
    | Tick(elapsed: nat)
    | Enqueue(id: string, eventId: string, destinationId: string, url: string, maxAttempts: int)
    | Claim(tid: int, worker: string, id: string)
    | Finish(tid: int, reply: Reply, share: real)
    | Crash(tid: int)
    | ReleaseStale
    | Retry(id: string)

  predicate Enabled(w: World, step: Step) {
    match step
    case Tick(_) => true
    case Enqueue(id, _, _, _, _) => id !in w.q.rows
    case Claim(tid, _, id) => tid !in w.tasks && id in w.q.rows && Due(w.q.rows[id], w.now)
    case Finish(tid, _, share) => tid in w.tasks && Share(share)
    case Crash(tid) => tid in w.tasks
    case ReleaseStale => true
    case Retry(_) => true
  }

  function Next(w: World, step: Step): (w': World)
    requires Tidy(w.q) && Enabled(w, step)
    ensures Tidy(w'.q)
  {
    match step
    case Tick(elapsed) => w.(now := w.now + elapsed)
    case Enqueue(id, eventId, destinationId, url, maxAttempts) =>
      w.(q := Enqueued(w.q, NewDelivery(id, eventId, destinationId, url, maxAttempts, w.now)).0)
    case Claim(tid, worker, id) =>
      w.(q := ClaimedOne(w.q, id, worker, w.now), tasks := w.tasks[tid := Locked(w.q.rows[id], worker, w.now)])
    case Finish(tid, reply, share) =>
      w.(q := Processed(w.q, w.tasks[tid], reply, share, w.now), tasks := w.tasks - {tid})
    case Crash(tid) => w.(tasks := w.tasks - {tid})
    case ReleaseStale => w.(q := Released(w.q, STALE_AFTER, w.now))
    case Retry(id) => w.(q := Retried(w.q, id, w.now).0)
  }

  function Start(now: Time): World { World(now, EMPTY, map[]) }

  predicate Allowed(w: World, steps: seq<Step>)
    requires Tidy(w.q)
    decreases |steps|
  {
    steps == [] || (Enabled(w, steps[0]) && Allowed(Next(w, steps[0]), steps[1..]))
  }

  function Run(w: World, steps: seq<Step>): (w': World)
    requires Tidy(w.q) && Allowed(w, steps)
    ensures Tidy(w'.q)
    decreases |steps|
  {
    if steps == [] then w else Run(Next(w, steps[0]), steps[1..])
  }

  // ---- what holds whatever the timing ----

  /** Attempt numbers start at one and have no gaps. */
  ghost predicate Numbered(attempts: map<int, Attempt>) {
    (forall k :: k in attempts <==> 1 <= k <= |attempts|)
    && forall k :: k in attempts ==> attempts[k].number == k
  }

  predicate CanGoOn(d: Delivery) {
    d.state == Pending || d.state == Failed || d.state == Delivering
  }

  ghost predicate RowSound(d: Delivery, attempts: map<int, Attempt>) {
    && (d.state == Delivering <==> d.lockedAt.Some?) && (d.lockedAt.Some? <==> d.lockedBy.Some?)
    && d.state != Canceled && d.maxAttempts > 0
    && Numbered(attempts) && |attempts| <= d.maxAttempts
    && 0 <= d.attemptCount <= |attempts|
    && (CanGoOn(d) ==> d.attemptCount < d.maxAttempts)
  }

  /** A copy was claimable once, and cannot be ahead of the recorded attempts. */
  predicate CopySound(c: Delivery, q: Queue) {
    c.id in q.rows && c.id in q.attempts && c.maxAttempts == q.rows[c.id].maxAttempts
    && c.state == Delivering && c.lockedAt.Some? && 0 <= c.attemptCount < c.maxAttempts && c.attemptCount <= |q.attempts[c.id]|
  }

  ghost predicate RowsSound(q: Queue)
    requires Tidy(q)
  {
    forall id :: id in q.rows ==> RowSound(q.rows[id], q.attempts[id])
  }

  ghost predicate Sound(w: World) {
    Tidy(w.q) && RowsSound(w.q) && forall tid :: tid in w.tasks ==> CopySound(w.tasks[tid], w.q)
  }

  /** Nothing recorded is lost or replaced. */
  ghost predicate Grows(q: Queue, q': Queue)
    requires Tidy(q) && Tidy(q')
  {
    forall id :: id in q.rows ==>
      id in q'.rows && q'.rows[id].maxAttempts == q.rows[id].maxAttempts
      && |q.attempts[id]| <= |q'.attempts[id]|
      && forall k :: k in q.attempts[id] ==> k in q'.attempts[id] && q'.attempts[id][k] == q.attempts[id][k]
  }

  lemma CopyOutlives(c: Delivery, q: Queue, q': Queue)
    requires Tidy(q) && Tidy(q') && Grows(q, q') && CopySound(c, q)
    ensures CopySound(c, q')
  {
    hide Tidy;
    assert c.id in q'.rows;
    assert c.id in q'.attempts by { AttemptsOf(q', c.id); }
  }

  lemma AttemptsOf(q: Queue, id: string)
    requires Tidy(q) && id in q.rows
    ensures id in q.attempts
  {
  }

  /** One more attempt under the next number, or a number that is already taken. */
  lemma RecordedAttempt(attempts: map<int, Attempt>, a: Attempt)
    requires Numbered(attempts) && 1 <= a.number <= |attempts| + 1
    ensures var after := WithAttempt(attempts, a);
      Numbered(after) && a.number <= |after| && |attempts| <= |after|
      && |after| == (if a.number == |attempts| + 1 then |attempts| + 1 else |attempts|)
      && forall k :: k in attempts ==> k in after && after[k] == attempts[k]
  {
    if a.number !in attempts {
      var after := attempts[a.number := a];
      assert after.Keys == attempts.Keys + {a.number};
      assert |after.Keys| == |attempts.Keys| + 1;
    }
  }

  ghost predicate OnlyAt(q: Queue, q': Queue, id: string)
    requires Tidy(q) && Tidy(q')
  {
    q'.rows.Keys == q.rows.Keys && q'.attempts.Keys == q.attempts.Keys
    && forall k :: k in q.rows && k != id ==> q'.rows[k] == q.rows[k] && q'.attempts[k] == q.attempts[k]
  }

  /** What a step may do to one row and its attempts. */
  ghost predicate RowStep(d: Delivery, attempts: map<int, Attempt>, d': Delivery, attempts': map<int, Attempt>) {
    && RowSound(d', attempts') && d'.maxAttempts == d.maxAttempts
    && |attempts| <= |attempts'| && forall k :: k in attempts ==> k in attempts' && attempts'[k] == attempts[k]
  }

  lemma SoundAt(w: World, q': Queue, id: string)
    requires Sound(w) && Tidy(q') && OnlyAt(w.q, q', id)
    requires id in w.q.rows ==> RowStep(w.q.rows[id], w.q.attempts[id], q'.rows[id], q'.attempts[id])
    ensures Sound(w.(q := q')) && Grows(w.q, q')
  {
    hide Tidy, RowSound;
    forall k | k in q'.rows ensures k in q'.attempts && RowSound(q'.rows[k], q'.attempts[k]) {
      AttemptsOf(q', k);
    }
    assert Grows(w.q, q');
    forall tid | tid in w.tasks ensures CopySound(w.tasks[tid], q') {
      CopyOutlives(w.tasks[tid], w.q, q');
    }
  }

  lemma NewRowSound(d: Delivery)
    requires d.attemptCount == 0 && d.maxAttempts > 0 && d.state == Pending && d.lockedAt.None? && d.lockedBy.None?
    ensures RowSound(d, map[])
  {
  }

  lemma EnqueuedFrame(q: Queue, d: Delivery)
    requires Tidy(q) && d.id !in q.rows
    ensures Grows(q, Enqueued(q, d).0)
    ensures forall id :: id in q.rows ==> id in Enqueued(q, d).0.rows
    ensures forall id :: id in Enqueued(q, d).0.rows ==> EnqueuedAt(q, Enqueued(q, d).0, d, id)
  {
    var q' := Enqueued(q, d).0;
    forall id | id in q'.rows ensures EnqueuedAt(q, q', d, id) {
      EnqueuedRow(q, d, id);
    }
    hide Enqueued, Tidy;
    assert forall id :: id in q.rows ==> EnqueuedAt(q, q', d, id);
  }

  predicate EnqueuedAt(q: Queue, q': Queue, d: Delivery, id: string) {
    id in q'.rows && id in q'.attempts
    && (if id in q.rows then id in q.attempts && q'.rows[id] == q.rows[id] && q'.attempts[id] == q.attempts[id]
        else q'.rows[id] == d && q'.attempts[id] == map[])
  }

  lemma EnqueuedRow(q: Queue, d: Delivery, id: string)
    requires Tidy(q) && d.id !in q.rows && id in Enqueued(q, d).0.rows
    ensures EnqueuedAt(q, Enqueued(q, d).0, d, id)
  {
  }

  lemma EnqueueSound(w: World, d: Delivery)
    requires Sound(w) && d.id !in w.q.rows && RowSound(d, map[])
    ensures Sound(w.(q := Enqueued(w.q, d).0)) && Grows(w.q, Enqueued(w.q, d).0)
  {
    var q' := Enqueued(w.q, d).0;
    EnqueuedFrame(w.q, d);
    hide Enqueued, Tidy, CopySound, RowSound, Grows;
    forall id | id in q'.rows ensures id in q'.attempts && RowSound(q'.rows[id], q'.attempts[id]) {
      assert EnqueuedAt(w.q, q', d, id);
    }
    forall tid | tid in w.tasks ensures CopySound(w.tasks[tid], q') {
      CopyOutlives(w.tasks[tid], w.q, q');
    }
  }

  lemma ClaimedFrame(q: Queue, id: string, worker: string, now: Time)
    requires Tidy(q) && id in q.rows
    ensures var q' := ClaimedOne(q, id, worker, now);
      OnlyAt(q, q', id) && id in q'.attempts && q'.rows[id] == Locked(q.rows[id], worker, now) && q'.attempts == q.attempts
  {
    hide Locked;
  }

  lemma ClaimSound(w: World, tid: int, worker: string, id: string)
    requires Sound(w) && Enabled(w, Claim(tid, worker, id))
    ensures Sound(Next(w, Claim(tid, worker, id))) && Grows(w.q, Next(w, Claim(tid, worker, id)).q)
  {
    AttemptsOf(w.q, id);
    assert RowSound(w.q.rows[id], w.q.attempts[id]) && w.q.rows[id].id == id;
    var q', d := ClaimedOne(w.q, id, worker, w.now), Locked(w.q.rows[id], worker, w.now);
    ClaimedFrame(w.q, id, worker, w.now);
    SameAttempts(w.q.rows[id], w.q.attempts[id], d);
    assert CopySound(d, q');
    hide Tidy, RowSound, RowStep, OnlyAt, RowsSound, CopySound, Grows, ClaimedOne;
    SoundAt(w, q', id);
  }

  /** The row an attempt is recorded in, and the attempt. */
  predicate Settles(c: Delivery, d: Delivery, a: Attempt) {
    && d.id == c.id && a.number == c.attemptCount + 1 && d.attemptCount == a.number
    && d.lockedAt.None? && d.lockedBy.None?
    && (d.state == Succeeded || d.state == Dead || (d.state == Failed && a.number < c.maxAttempts))
  }

  lemma ProcessedIsRecord(q: Queue, c: Delivery, r: Reply, share: real, now: Time) returns (d: Delivery, a: Attempt)
    requires Tidy(q) && c.id in q.rows
    ensures Settles(c, d, a) && d.maxAttempts == q.rows[c.id].maxAttempts && Pair(d) == Pair(q.rows[c.id])
    ensures d.state == Succeeded <==> Delivered(r)
    ensures Processed(q, c, r, share, now) == Record(q, d, a)
  {
    assert q.rows[c.id].id == c.id;
    hide RetryDelay, Tidy, Record, WithAttempt;
    a := Observed(c, r);
    if Delivered(r) {
      d := SuccessRecorded(q, c, a, now).1.value;
    } else {
      d := FailureRecorded(q, c, a, Retryable(r), share, now).1.value;
    }
  }

  /** What becomes of an attempt: delivered on a success code; dead when it is not worth another try or
      the copy's last was used; otherwise failed, and not due again before the schedule says, give or
      take a tenth. */
  lemma OutcomeOfAnAttempt(q: Queue, c: Delivery, r: Reply, share: real, now: Time)
    requires Tidy(q) && c.id in q.rows && Share(share)
    ensures var q' := Processed(q, c, r, share, now); var number := c.attemptCount + 1; var base := BaseDelay(number);
      c.id in q'.rows
      && (q'.rows[c.id].state == Succeeded <==> r.Status? && 200 <= r.code < 300)
      && (q'.rows[c.id].state == Dead <==>
            (r == NotPrepared || r == NoReply(true)
             || (r.Status? && 400 <= r.code < 500 && r.code != 408 && r.code != 425 && r.code != 429)
             || (!(r.Status? && 200 <= r.code < 300) && number >= c.maxAttempts)))
      && (q'.rows[c.id].state == Failed ==>
            now + base - base / 10 <= q'.rows[c.id].nextAttemptAt <= now + base + base / 10
            && !Due(q'.rows[c.id], now))
  {
    JitterIsBounded(c.attemptCount + 1, share);
    DelayIsPositive(c.attemptCount + 1);
    assert q.rows[c.id].id == c.id;
    hide Tidy, RetryDelay, BaseDelay, WithAttempt;
  }

  predicate DeliveredBy(r: Reply) { r.Status? && 200 <= r.code < 300 }

  function TroubleOf(r: Reply): Trouble {
    if r == NotPrepared then Unprepared
    else if r == NoReply(true) then Blocked
    else if r == NoReply(false) then Unreachable
    else if DeliveredBy(r) then NoTrouble
    else BadStatus(r.code)
  }

  /** What is kept of an attempt: the status and the trouble as they were met, under one number past the
      copy's, unless that number was recorded before; in the row the same, and no lock.  Nothing else changes
      but the next attempt's time. */
  lemma RecordOfAnAttempt(q: Queue, c: Delivery, r: Reply, share: real, now: Time)
    requires Tidy(q) && c.id in q.rows
    ensures var q' := Processed(q, c, r, share, now); var number, row := c.attemptCount + 1, q.rows[c.id];
      var status := if r.Status? then Some(r.code) else None;
      && OnlyAt(q, q', c.id) && c.id in q'.rows && c.id in q'.attempts && c.id in q.attempts && q'.index == q.index
      && q'.attempts[c.id]
         == (if number in q.attempts[c.id] then q.attempts[c.id] else q.attempts[c.id][number := Attempt(number, status, TroubleOf(r))])
      && q'.rows[c.id]
         == row.(state := q'.rows[c.id].state, attemptCount := number, nextAttemptAt := q'.rows[c.id].nextAttemptAt,
                 lastStatus := status, lastError := TroubleOf(r), lockedAt := None, lockedBy := None,
                 succeededAt := if DeliveredBy(r) then Some(now) else row.succeededAt)
      && (DeliveredBy(r) ==> q'.rows[c.id].nextAttemptAt == row.nextAttemptAt)
      && (q'.rows[c.id].state == Dead ==> q'.rows[c.id].nextAttemptAt == now)
  {
    var d, a := WrittenFor(q, c, r, share, now);
    hide Tidy, Processed, Record;
    RecordFrame(q, d, a);
    RecordKeepsIndex(q, d, a);
    hide OnlyAt;
  }

  /** The row written for an attempt, as far as it does not depend on the retry policy. */
  predicate Written(row: Delivery, a: Attempt, done: Option<Time>, now: Time, d: Delivery) {
    && d == row.(state := d.state, attemptCount := a.number, nextAttemptAt := d.nextAttemptAt, lastStatus := a.status,
                 lastError := a.error, lockedAt := None, lockedBy := None, succeededAt := if done.Some? then done else row.succeededAt)
    && (done.Some? ==> d.nextAttemptAt == row.nextAttemptAt && d.state == Succeeded) && (d.state == Dead ==> d.nextAttemptAt == now)
  }

  lemma SuccessWritten(q: Queue, c: Delivery, a: Attempt, now: Time) returns (d: Delivery)
    requires Tidy(q) && c.id in q.rows && a.error == NoTrouble
    ensures d.id == c.id && Pair(d) == Pair(q.rows[c.id]) && Written(q.rows[c.id], a, Some(now), now, d)
    ensures SuccessRecorded(q, c, a, now).0 == Record(q, d, a)
  {
    assert q.rows[c.id].id == c.id;
    hide Tidy, Record;
    d := SuccessRecorded(q, c, a, now).1.value;
  }

  lemma FailureWritten(q: Queue, c: Delivery, a: Attempt, retry: bool, share: real, now: Time) returns (d: Delivery)
    requires Tidy(q) && c.id in q.rows
    ensures d.id == c.id && Pair(d) == Pair(q.rows[c.id]) && Written(q.rows[c.id], a, None, now, d)
    ensures FailureRecorded(q, c, a, retry, share, now).0 == Record(q, d, a)
  {
    assert q.rows[c.id].id == c.id;
    hide Tidy, Record, RetryDelay;
    d := FailureRecorded(q, c, a, retry, share, now).1.value;
  }

  lemma WrittenFor(q: Queue, c: Delivery, r: Reply, share: real, now: Time) returns (d: Delivery, a: Attempt)
    requires Tidy(q) && c.id in q.rows
    ensures a == Attempt(c.attemptCount + 1, if r.Status? then Some(r.code) else None, TroubleOf(r))
    ensures d.id == c.id && Pair(d) == Pair(q.rows[c.id])
    ensures Processed(q, c, r, share, now) == Record(q, d, a) && Written(q.rows[c.id], a, if DeliveredBy(r) then Some(now) else None, now, d)
  {
    hide Tidy, Record, SuccessRecorded, FailureRecorded, Written, Retryable;
    a := Observed(c, r);
    if DeliveredBy(r) {
      d := SuccessWritten(q, c, a, now);
    } else {
      d := FailureWritten(q, c, a, Retryable(r), share, now);
    }
  }

  lemma RecordKeepsIndex(q: Queue, d: Delivery, a: Attempt)
    requires Tidy(q) && d.id in q.rows && Pair(d) == Pair(q.rows[d.id])
    ensures Record(q, d, a).index == q.index
  {
  }

  /** Recovery looks at each row: one that has been locked for more than five minutes is failed, unlocked and
      due at once, with its attempts as they were; every other stays as it is. */
  lemma StaleIsReleased(w: World, id: string)
    requires Tidy(w.q) && id in w.q.rows
    ensures var w' := Next(w, ReleaseStale); var d := w.q.rows[id];
      && w' == w.(q := w'.q) && w'.q.attempts == w.q.attempts && w'.q.index == w.q.index && w'.q.rows.Keys == w.q.rows.Keys
      && w'.q.rows[id]
         == (if d.state == Delivering && d.lockedAt.Some? && w.now - d.lockedAt.value > 5 * 60 * 1_000_000_000
             then d.(state := Failed, lockedAt := None, lockedBy := None, lastError := Abandoned, nextAttemptAt := w.now)
             else d)
      && (w'.q.rows[id] != d ==> Due(w'.q.rows[id], w'.now))
  {
    hide Tidy;
  }

  lemma DelayIsPositive(attempt: int)
    ensures BaseDelay(attempt) >= MINUTE
  {
  }

  lemma RecordFrame(q: Queue, d: Delivery, a: Attempt)
    requires Tidy(q) && d.id in q.rows && Pair(d) == Pair(q.rows[d.id])
    ensures var q' := Record(q, d, a);
      && OnlyAt(q, q', d.id) && d.id in q'.rows && d.id in q'.attempts && d.id in q.attempts
      && q'.rows[d.id] == d && q'.attempts[d.id] == WithAttempt(q.attempts[d.id], a)
  {
    hide WithAttempt;
  }

  lemma SettledRow(row: Delivery, attempts: map<int, Attempt>, c: Delivery, d: Delivery, a: Attempt)
    requires RowSound(row, attempts) && Settles(c, d, a)
    requires c.maxAttempts == row.maxAttempts == d.maxAttempts && 0 <= c.attemptCount < c.maxAttempts && c.attemptCount <= |attempts|
    ensures RowStep(row, attempts, d, WithAttempt(attempts, a))
  {
    RecordedAttempt(attempts, a);
    hide Numbered, WithAttempt;
  }

  lemma ProcessedRow(q: Queue, c: Delivery, r: Reply, share: real, now: Time)
    requires Tidy(q) && RowsSound(q) && CopySound(c, q)
    ensures var q' := Processed(q, c, r, share, now);
      OnlyAt(q, q', c.id) && c.id in q'.rows && c.id in q'.attempts
      && RowStep(q.rows[c.id], q.attempts[c.id], q'.rows[c.id], q'.attempts[c.id])
  {
    assert RowSound(q.rows[c.id], q.attempts[c.id]);
    hide Tidy, RowSound, RowStep, Processed, Record, OnlyAt, WithAttempt, RowsSound;
    var d, a := ProcessedIsRecord(q, c, r, share, now);
    RecordFrame(q, d, a);
    SettledRow(q.rows[c.id], q.attempts[c.id], c, d, a);
  }

  lemma FinishSound(w: World, tid: int, reply: Reply, share: real)
    requires Sound(w) && Enabled(w, Finish(tid, reply, share))
    ensures Sound(Next(w, Finish(tid, reply, share))) && Grows(w.q, Next(w, Finish(tid, reply, share)).q)
  {
    var c := w.tasks[tid];
    assert CopySound(c, w.q);
    ProcessedRow(w.q, c, reply, share, w.now);
    hide Tidy, Processed, RowStep;
    SoundAt(w, Processed(w.q, c, reply, share, w.now), c.id);
  }

  lemma ReleaseSound(w: World)
    requires Sound(w)
    ensures Sound(Next(w, ReleaseStale)) && Grows(w.q, Next(w, ReleaseStale).q)
  {
    var q' := Released(w.q, STALE_AFTER, w.now);
    ReleasedGrows(w.q, STALE_AFTER, w.now);
    hide RowSound, Released, Grows, Tidy, CopySound;
    forall id | id in q'.rows ensures id in q'.attempts && RowSound(q'.rows[id], q'.attempts[id]) {
      ReleasedRow(w.q, STALE_AFTER, w.now, id);
    }
    forall tid | tid in w.tasks ensures CopySound(w.tasks[tid], q') {
      CopyOutlives(w.tasks[tid], w.q, q');
    }
  }

  lemma ReleasedGrows(q: Queue, olderThan: Time, now: Time)
    requires Tidy(q)
    ensures Grows(q, Released(q, olderThan, now))
  {
  }

  lemma ReleasedRow(q: Queue, olderThan: Time, now: Time, id: string)
    requires Tidy(q) && RowsSound(q) && id in Released(q, olderThan, now).rows
    ensures var q' := Released(q, olderThan, now); id in q'.attempts && RowSound(q'.rows[id], q'.attempts[id])
  {
    assert RowSound(q.rows[id], q.attempts[id]);
    hide Numbered, Tidy;
  }

  lemma WithRowFrame(q: Queue, d: Delivery)
    requires Tidy(q) && d.id in q.rows && Pair(d) == Pair(q.rows[d.id])
    ensures var q' := WithRow(q, d);
      OnlyAt(q, q', d.id) && d.id in q'.rows && d.id in q'.attempts && q'.rows[d.id] == d && q'.attempts == q.attempts
  {
  }

  lemma SameAttempts(row: Delivery, attempts: map<int, Attempt>, d: Delivery)
    requires RowSound(row, attempts) && d.maxAttempts == row.maxAttempts
    requires (d.state == Delivering <==> d.lockedAt.Some?) && (d.lockedAt.Some? <==> d.lockedBy.Some?) && d.state != Canceled
    requires (d.attemptCount == row.attemptCount && CanGoOn(row)) || (d.attemptCount == 0 && d.state == Pending)
    ensures RowStep(row, attempts, d, attempts)
  {
    hide Numbered;
  }

  lemma RetrySound(w: World, id: string)
    requires Sound(w)
    ensures Sound(Next(w, Retry(id))) && Grows(w.q, Next(w, Retry(id)).q)
  {
    if id in w.q.rows && w.q.rows[id].state != Delivering {
      AttemptsOf(w.q, id);
      assert RowSound(w.q.rows[id], w.q.attempts[id]) && w.q.rows[id].id == id;
      hide Tidy, RowSound, RowStep, OnlyAt, WithRow, RowsSound, CopySound, Grows, Sound;
      var d := Retried(w.q, id, w.now).1.value;
      WithRowFrame(w.q, d);
      SameAttempts(w.q.rows[id], w.q.attempts[id], d);
      SoundAt(w, WithRow(w.q, d), id);
    }
  }

  lemma NextSound(w: World, step: Step)
    requires Sound(w) && Enabled(w, step)
    ensures Sound(Next(w, step)) && Grows(w.q, Next(w, step).q)
  {
    hide RowSound, Enqueued, CopySound;
    match step
    case Tick(_) =>
    case Enqueue(id, eventId, destinationId, url, maxAttempts) =>
      var d := NewDelivery(id, eventId, destinationId, url, maxAttempts, w.now);
      NewRowSound(d);
      EnqueueSound(w, d);
    case Claim(tid, worker, id) => ClaimSound(w, tid, worker, id);
    case Finish(tid, reply, share) => FinishSound(w, tid, reply, share);
    case Crash(_) =>
    case ReleaseStale => ReleaseSound(w);
    case Retry(id) => RetrySound(w, id);
  }

  lemma {:induction false} RunSound(w: World, steps: seq<Step>)
    requires Sound(w) && Allowed(w, steps)
    ensures Sound(Run(w, steps)) && Grows(w.q, Run(w, steps).q)
    decreases |steps|
  {
    hide Enabled, Next, Tidy, RowsSound, CopySound;
    if steps != [] {
      NextSound(w, steps[0]);
      RunSound(Next(w, steps[0]), steps[1..]);
    }
  }

  /** In every reachable state, however workers crash, answer late or operators retry: a delivery is
      locked exactly while it is being delivered, its recorded attempts are numbered from one without
      a gap and never exceed its maximum, and it still has an attempt left unless it has ended. */
  lemma AttemptsAreAccounted(start: Time, steps: seq<Step>, id: string)
    requires Allowed(Start(start), steps) && id in Run(Start(start), steps).q.rows
    ensures var q := Run(Start(start), steps).q; var d := q.rows[id];
      && id in q.attempts
      && (d.state == Delivering <==> d.lockedAt.Some?) && (d.lockedAt.Some? <==> d.lockedBy.Some?)
      && (forall k :: k in q.attempts[id] <==> 1 <= k <= |q.attempts[id]|) && |q.attempts[id]| <= d.maxAttempts
      && (!Terminal(d.state) ==> d.attemptCount < d.maxAttempts)
  {
    RunSound(Start(start), steps);
    var q := Run(Start(start), steps).q;
    AttemptsOf(q, id);
    assert RowSound(q.rows[id], q.attempts[id]);
    hide Run, Tidy, Allowed;
  }

  /** What was recorded first under an attempt number stays: no later record, retry or crash changes
      or removes it. */
  lemma AttemptsAreKept(start: Time, before: seq<Step>, after: seq<Step>, id: string, number: int)
    requires Allowed(Start(start), before) && Allowed(Run(Start(start), before), after)
    requires var q := Run(Start(start), before).q; id in q.attempts && number in q.attempts[id]
    ensures var w := Run(Start(start), before); var q' := Run(w, after).q;
      id in q'.attempts && number in q'.attempts[id] && q'.attempts[id][number] == w.q.attempts[id][number]
  {
    RunSound(Start(start), before);
    var w := Run(Start(start), before);
    RunSound(w, after);
    assert id in w.q.rows;
    AttemptsOf(Run(w, after).q, id);
    hide Run, Tidy, Allowed;
  }
}
