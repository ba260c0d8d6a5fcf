/** A retry by hand: what it does to a delivery, and the full round of attempts that may follow it. */
module DeliveryRetries {
  import opened Wrappers
  import opened Deliveries
  import opened DeliveryProtocol
  import opened DeliveryExclusion
  import opened DeliveryTermination

  /** Nothing changes but one row. */
  ghost predicate OnlyRow(q: Queue, q': Queue, id: string) {
    q'.attempts == q.attempts && q'.index == q.index && q'.rows.Keys == q.rows.Keys
    && forall k :: k in q.rows && k != id ==> q'.rows[k] == q.rows[k]
  }

  /** A retry finds no row, finds it being delivered, or revives it: whatever state it was in, dead and
      succeeded included, it is then pending, unlocked, due at once and back at its first attempt. */
  lemma RetryRevives(q: Queue, id: string, now: Time)
    requires Tidy(q)
    ensures var (q', r) := Retried(q, id, now);
      && (r == Err(NotFound) <==> id !in q.rows)
      && (r == Err(InFlight) <==> id in q.rows && q.rows[id].state == Delivering)
      && (r.Err? ==> q' == q)
      && (id in q.rows && q.rows[id].state in {Pending, Failed, Dead, Succeeded, Canceled} ==>
            && OnlyRow(q, q', id) && r == Ok(q'.rows[id]) && Due(q'.rows[id], now)
            && q'.rows[id] == q.rows[id].(state := Pending, attemptCount := 0, nextAttemptAt := now,
                                          lockedAt := None, lockedBy := None, lastError := NoTrouble))
  {
    assert id in q.rows ==> q.rows[id].id == id;
  }

  // ---- the round that may follow ----

  /** The waits before the attempts after the first, without jitter. */
  function Waits(n: nat): Time {
    if n == 0 then 0 else Waits(n - 1) + BaseDelay(n)
  }

  /** With seven attempts the schedule spans a little over 31 hours: 1, 5 and 15 minutes, 1, 6 and 24 hours. */
  lemma ScheduleSpans()
    ensures Waits(6) == (1 + 5 + 15 + 60 + 360 + 1440) * 60_000_000_000
    ensures 31 * HOUR < Waits(DEFAULT_MAX_ATTEMPTS - 1) < 32 * HOUR
  {
    assert BaseDelay(1) == 60_000_000_000 && BaseDelay(2) == 300_000_000_000 && BaseDelay(3) == 900_000_000_000;
    assert BaseDelay(4) == 3_600_000_000_000 && BaseDelay(5) == 21_600_000_000_000 && BaseDelay(6) == 86_400_000_000_000;
    hide BaseDelay;
    assert Waits(3) == BaseDelay(1) + BaseDelay(2) + BaseDelay(3);
  }

  /** The wait before the attempt that follows `n` of them. */
  function WaitAfter(n: nat): nat
    ensures n > 0 ==> WaitAfter(n) == BaseDelay(n)
  {
    if n == 0 then 0 else BaseDelay(n)
  }

  /** The attempts after the first `n`, each made when it is due and failing. */
  function Round(tid: int, id: string, n: nat, max: nat): seq<Step>
    requires n <= max
    decreases max - n
  {
    if n == max then []
    else [Tick(WaitAfter(n))] + ([Claim(tid, "worker", id)] + ([Finish(tid, Status(500), 0.0)] + Round(tid, id, n + 1, max)))
  }

  /** A delivery after `n` attempts of its round, waiting for the next. */
  ghost predicate WaitingAt(w: World, id: string, tid: int, n: nat) {
    && Tidy(w.q) && id in w.q.rows && tid !in w.tasks
    && (w.q.rows[id].state == Pending || w.q.rows[id].state == Failed)
    && w.q.rows[id].attemptCount == n < w.q.rows[id].maxAttempts && w.q.rows[id].nextAttemptAt == w.now + WaitAfter(n)
  }

  ghost predicate UsedUp(w: World, id: string, max: int) {
    Tidy(w.q) && id in w.q.rows && w.q.rows[id].state == Dead && w.q.rows[id].attemptCount == w.q.rows[id].maxAttempts == max
  }

  lemma Joins(w: World, step: Step, rest: seq<Step>, id: string)
    requires Tidy(w.q) && Enabled(w, step) && Allowed(Next(w, step), rest)
    ensures Allowed(w, [step] + rest) && Run(w, [step] + rest) == Run(Next(w, step), rest)
    ensures Advanced(w, [step] + rest, id) == One(Advances(w, step, id)) + Advanced(Next(w, step), rest, id)
  {
    hide Tidy, Enabled, Next, Advances;
    assert ([step] + rest)[1..] == rest;
  }

  lemma Waited(w: World, id: string, tid: int, n: nat)
    requires WaitingAt(w, id, tid, n)
    ensures Tidy(w.q) && Enabled(w, Tick(WaitAfter(n))) && id in w.q.rows && w.q.rows[id].id == id
    ensures w.q.rows[id].attemptCount == n < w.q.rows[id].maxAttempts
    ensures var w' := Next(w, Tick(WaitAfter(n)));
      w'.q == w.q && w'.tasks == w.tasks && w'.now == w.now + WaitAfter(n) && Enabled(w', Claim(tid, "worker", id))
  {
    assert w.q.rows[id].id == id;
    hide Tidy;
  }

  lemma ClaimedAt(w: World, id: string, tid: int)
    requires Tidy(w.q) && Enabled(w, Claim(tid, "worker", id))
    ensures var w' := Next(w, Claim(tid, "worker", id));
      && w'.now == w.now && w'.tasks == w.tasks[tid := Locked(w.q.rows[id], "worker", w.now)] && Tidy(w'.q)
      && id in w'.q.rows && w'.q.rows[id] == Locked(w.q.rows[id], "worker", w.now)
      && w'.tasks - {tid} == w.tasks && Enabled(w', Finish(tid, Status(500), 0.0))
  {
    ClaimedFrame(w.q, id, "worker", w.now);
    hide Tidy, ClaimedOne;
  }

  /** An attempt that fails and may be tried again: the next is due after its wait, or there is none. */
  lemma FailedAt(w: World, id: string, tid: int, n: nat)
    requires Tidy(w.q) && id in w.q.rows && tid in w.tasks && w.tasks[tid] == w.q.rows[id] && w.q.rows[id].attemptCount == n < w.q.rows[id].maxAttempts
    ensures var w' := Next(w, Finish(tid, Status(500), 0.0));
      && w'.now == w.now && w'.tasks == w.tasks - {tid} && id in w'.q.rows && w'.q.rows[id].maxAttempts == w.q.rows[id].maxAttempts
      && (if n + 1 < w.q.rows[id].maxAttempts then WaitingAt(w', id, tid, n + 1) else UsedUp(w', id, w.q.rows[id].maxAttempts))
  {
    var c := w.tasks[tid];
    assert c.id == id;
    JitterIsBounded(n + 1, 0.0);
    assert RetryDelay(n + 1, 0.0) == BaseDelay(n + 1);
    hide Tidy, RetryDelay, BaseDelay, WithAttempt;
  }

  /** The three steps of an attempt. */
  ghost predicate Steps3(w: World, w1: World, w2: World, w3: World, n: nat, id: string, tid: int) {
    var s1, s2, s3 := Tick(WaitAfter(n)), Claim(tid, "worker", id), Finish(tid, Status(500), 0.0);
    && Tidy(w.q) && Tidy(w1.q) && Tidy(w2.q) && Tidy(w3.q)
    && Enabled(w, s1) && w1 == Next(w, s1) && Enabled(w1, s2) && w2 == Next(w1, s2) && Enabled(w2, s3) && w3 == Next(w2, s3)
    && !Advances(w, s1, id) && Advances(w1, s2, id) && Advances(w2, s3, id)
  }

  ghost predicate After(w: World, w': World, n: nat, id: string, tid: int)
  {
    && id in w.q.rows && id in w'.q.rows && w'.now == w.now + WaitAfter(n) && w'.q.rows[id].maxAttempts == w.q.rows[id].maxAttempts
    && (if n + 1 < w.q.rows[id].maxAttempts then WaitingAt(w', id, tid, n + 1) else UsedUp(w', id, w.q.rows[id].maxAttempts))
  }

  lemma OneAttempt(w: World, id: string, tid: int, n: nat) returns (w1: World, w2: World, w': World)
    requires WaitingAt(w, id, tid, n)
    ensures Steps3(w, w1, w2, w', n, id, tid) && After(w, w', n, id, tid)
  {
    var s1, s2, s3 := Tick(WaitAfter(n)), Claim(tid, "worker", id), Finish(tid, Status(500), 0.0);
    hide Tidy, Next, Enabled, UsedUp, WaitAfter, WaitingAt;
    Waited(w, id, tid, n);
    w1 := Next(w, s1);
    assert id in w1.q.rows;
    ClaimedAt(w1, id, tid);
    w2 := Next(w1, s2);
    FailedAt(w2, id, tid, n);
    w' := Next(w2, s3);
  }

  lemma JoinsThree(w: World, w1: World, w2: World, w': World, id: string, tid: int, n: nat, rest: seq<Step>)
    requires Steps3(w, w1, w2, w', n, id, tid) && Allowed(w', rest)
    ensures Tidy(w.q) && Tidy(w'.q)
    ensures var steps := [Tick(WaitAfter(n))] + ([Claim(tid, "worker", id)] + ([Finish(tid, Status(500), 0.0)] + rest));
      Allowed(w, steps) && Run(w, steps) == Run(w', rest) && Advanced(w, steps, id) == 2 + Advanced(w', rest, id)
  {
    hide Tidy, Next, Enabled, Allowed, Run, Advanced, Advances;
    var s1, s2, s3 := Tick(WaitAfter(n)), Claim(tid, "worker", id), Finish(tid, Status(500), 0.0);
    Joins(w2, s3, rest, id);
    Joins(w1, s2, [s3] + rest, id);
    Joins(w, s1, [s2] + ([s3] + rest), id);
  }

  /** The round ends with the attempts used up, as late as its waits add up to. */
  ghost predicate RoundEnds(w: World, id: string, tid: int, n: nat, max: nat)
    requires Tidy(w.q) && n < max
  {
    && Allowed(w, Round(tid, id, n, max)) && UsedUp(Run(w, Round(tid, id, n, max)), id, max)
    && Run(w, Round(tid, id, n, max)).now == w.now + WaitAfter(n) + Waits(max - 1) - Waits(n)
    && Advanced(w, Round(tid, id, n, max), id) == 2 * (max - n)
  }

  lemma WaitsOn(n: nat)
    ensures Waits(n + 1) == Waits(n) + WaitAfter(n + 1)
  {
    hide BaseDelay;
  }

  lemma WaitingIsTidy(w: World, id: string, tid: int, n: nat)
    requires WaitingAt(w, id, tid, n)
    ensures Tidy(w.q) && id in w.q.rows && n < w.q.rows[id].maxAttempts
  {
    hide Tidy;
  }

  lemma {:induction false} RoundRuns(w: World, id: string, tid: int, n: nat, max: nat)
    requires WaitingAt(w, id, tid, n) && w.q.rows[id].maxAttempts == max
    ensures Tidy(w.q) && n < max && RoundEnds(w, id, tid, n, max)
    decreases max - n
  {
    WaitingIsTidy(w, id, tid, n);
    var w1, w2, w' := OneAttempt(w, id, tid, n);
    assert Tidy(w'.q) && w'.now == w.now + WaitAfter(n);
    assert if n + 1 < max then WaitingAt(w', id, tid, n + 1) else UsedUp(w', id, max);
    assert n + 1 < max ==> w'.q.rows[id].maxAttempts == max;
    hide *;
    if n + 1 < max {
      RoundRuns(w', id, tid, n + 1, max);
      RoundGoesOn(w, w1, w2, w', id, tid, n, max);
    } else {
      LastOfRound(w, w1, w2, w', id, tid, n, max);
    }
  }

  lemma RoundGoesOn(w: World, w1: World, w2: World, w': World, id: string, tid: int, n: nat, max: nat)
    requires Steps3(w, w1, w2, w', n, id, tid) && w'.now == w.now + WaitAfter(n) && n + 1 < max && Tidy(w'.q) && RoundEnds(w', id, tid, n + 1, max)
    ensures Tidy(w.q) && RoundEnds(w, id, tid, n, max)
  {
    WaitsOn(n);
    hide Tidy, Allowed, Run, Advanced, UsedUp, WaitAfter, Waits, Steps3;
    JoinsThree(w, w1, w2, w', id, tid, n, Round(tid, id, n + 1, max));
  }

  lemma LastOfRound(w: World, w1: World, w2: World, w': World, id: string, tid: int, n: nat, max: nat)
    requires Steps3(w, w1, w2, w', n, id, tid) && w'.now == w.now + WaitAfter(n) && n + 1 == max && UsedUp(w', id, max)
    ensures Tidy(w.q) && RoundEnds(w, id, tid, n, max)
  {
    assert Tidy(w'.q);
    assert Round(tid, id, n + 1, max) == [] && Allowed(w', []) && Run(w', []) == w' && Advanced(w', [], id) == 0;
    hide Tidy, Allowed, Run, Advanced, UsedUp, WaitAfter, Waits, Steps3;
    JoinsThree(w, w1, w2, w', id, tid, n, Round(tid, id, n + 1, max));
  }

  lemma {:induction false} RoundIsClean(tid: int, id: string, n: nat, max: nat)
    requires n <= max
    ensures forall i :: 0 <= i < |Round(tid, id, n, max)| ==> !Round(tid, id, n, max)[i].Crash? && !Round(tid, id, n, max)[i].Retry?
    decreases max - n
  {
    if n < max {
      RoundIsClean(tid, id, n + 1, max);
    }
  }

  lemma {:induction false} SomeFree(tasks: map<int, Delivery>, from: int) returns (tid: int)
    ensures tid !in tasks && tid >= from
    decreases tasks.Keys
  {
    tid := from;
    if from in tasks {
      assert (tasks - {from}).Keys == tasks.Keys - {from};
      tid := SomeFree(tasks - {from}, from + 1);
    }
  }

  lemma RetriedWaits(w: World, id: string, tid: int)
    requires Sound(w) && id in w.q.rows && w.q.rows[id].state != Delivering && tid !in w.tasks
    ensures var w' := Next(w, Retry(id));
      WaitingAt(w', id, tid, 0) && w'.now == w.now && w'.q.rows[id].maxAttempts == w.q.rows[id].maxAttempts
  {
    AttemptsOf(w.q, id);
    assert RowSound(w.q.rows[id], w.q.attempts[id]) && w.q.rows[id].id == id;
    hide Tidy, Numbered;
  }

  /** A retry gives the whole schedule again: from every state that is not an attempt under way, and whatever
      other workers hold, the retry can be followed, without a crash or another retry, by every allowed
      attempt, over exactly the waits of the schedule. */
  lemma RetryGivesAFullRound(w: World, id: string) returns (steps: seq<Step>)
    requires Sound(w) && id in w.q.rows && w.q.rows[id].state != Delivering
    ensures var max := w.q.rows[id].maxAttempts; var all := [Retry(id)] + steps;
      && max > 0 && Allowed(w, all) && (forall i :: 0 <= i < |steps| ==> !steps[i].Crash? && !steps[i].Retry?)
      && UsedUp(Run(w, all), id, max) && Run(w, all).now == w.now + Waits(max - 1) && Advanced(w, all, id) == 2 * max
  {
    var tid := SomeFree(w.tasks, 0);
    RetriedWaits(w, id, tid);
    var max := w.q.rows[id].maxAttempts;
    var w' := Next(w, Retry(id));
    WaitingIsTidy(w', id, tid, 0);
    steps := Round(tid, id, 0, max);
    hide Next, Enabled, Tidy, UsedUp, WaitingAt, Round, RowSound, RowsSound, CopySound;
    RoundRuns(w', id, tid, 0, max);
    RoundIsClean(tid, id, 0, max);
    RetryIsFree(w, id);
    Joins(w, Retry(id), steps, id);
    hide Allowed, Run, Advanced;
  }

  lemma RetryIsFree(w: World, id: string)
    ensures Enabled(w, Retry(id)) && !Advances(w, Retry(id), id) && WaitAfter(0) == 0 && Waits(0) == 0
  {
  }
}
