/** One attempt at a time, and successes that last, when attempts end before their locks go stale. */
module DeliveryExclusion {
  import opened Wrappers
  import opened Deliveries
  import opened DeliveryProtocol

  /** Every attempt under way ends, one way or another, before its lock may be taken for abandoned. */
  predicate Prompt(w: World, step: Step) {
    step.Tick? ==>
      forall tid :: tid in w.tasks && w.tasks[tid].lockedAt.Some? ==> w.now + step.elapsed <= w.tasks[tid].lockedAt.value + STALE_AFTER
  }

  predicate AllPrompt(w: World, steps: seq<Step>)
    requires Tidy(w.q) && Allowed(w, steps)
    decreases |steps|
  {
    steps == [] || (Prompt(w, steps[0]) && AllPrompt(Next(w, steps[0]), steps[1..]))
  }

  predicate Holds(c: Delivery, q: Queue, now: Time) {
    c.id in q.rows && q.rows[c.id] == c && c.state == Delivering && c.lockedAt.Some? && now <= c.lockedAt.value + STALE_AFTER
  }

  ghost predicate AllHold(tasks: map<int, Delivery>, q: Queue, now: Time) {
    forall tid :: tid in tasks ==> Holds(tasks[tid], q, now)
  }

  ghost predicate Apart(tasks: map<int, Delivery>) {
    forall tid, other :: tid in tasks && other in tasks && tid != other ==> tasks[tid].id != tasks[other].id
  }

  /** Every attempt under way holds its row, unchanged since the claim, and no two hold the same. */
  ghost predicate Exclusive(w: World) {
    AllHold(w.tasks, w.q, w.now) && Apart(w.tasks)
  }

  /** Rows other than `id` are as before. */
  ghost predicate SameBut(q: Queue, q': Queue, id: string) {
    forall k :: k in q.rows && k != id ==> k in q'.rows && q'.rows[k] == q.rows[k]
  }

  lemma HeldElsewhere(tasks: map<int, Delivery>, q: Queue, q': Queue, id: string, now: Time)
    requires AllHold(tasks, q, now) && SameBut(q, q', id) && forall tid :: tid in tasks ==> tasks[tid].id != id
    ensures AllHold(tasks, q', now)
  {
  }

  lemma ClaimExclusive(w: World, tid: int, worker: string, id: string)
    requires Tidy(w.q) && Exclusive(w) && Enabled(w, Claim(tid, worker, id))
    ensures Exclusive(Next(w, Claim(tid, worker, id)))
  {
    assert w.q.rows[id].id == id;
    ClaimedFrame(w.q, id, worker, w.now);
    hide Tidy, ClaimedOne;
    var q' := ClaimedOne(w.q, id, worker, w.now);
    assert forall t :: t in w.tasks ==> w.tasks[t].id != id;
    HeldElsewhere(w.tasks, w.q, q', id, w.now);
    assert Holds(Locked(w.q.rows[id], worker, w.now), q', w.now);
  }

  lemma FinishExclusive(w: World, tid: int, reply: Reply, share: real)
    requires Tidy(w.q) && Exclusive(w) && Enabled(w, Finish(tid, reply, share))
    ensures Exclusive(Next(w, Finish(tid, reply, share)))
  {
    hide Tidy, Processed, Record, Settles;
    var c := w.tasks[tid];
    assert Holds(c, w.q, w.now);
    var d, a := ProcessedIsRecord(w.q, c, reply, share, w.now);
    SettledId(c, d, a);
    RecordFrame(w.q, d, a);
    HeldElsewhere(w.tasks - {tid}, w.q, Processed(w.q, c, reply, share, w.now), c.id, w.now);
  }

  lemma SettledId(c: Delivery, d: Delivery, a: Attempt)
    requires Settles(c, d, a)
    ensures d.id == c.id
  {
  }

  lemma ReleaseExclusive(w: World)
    requires Tidy(w.q) && Exclusive(w)
    ensures Exclusive(Next(w, ReleaseStale))
  {
    hide Tidy;
    var q' := Released(w.q, STALE_AFTER, w.now);
    forall tid | tid in w.tasks ensures Holds(w.tasks[tid], q', w.now) {
      assert Holds(w.tasks[tid], w.q, w.now);
    }
  }

  lemma RetriedFrame(q: Queue, id: string, now: Time)
    requires Tidy(q)
    ensures id in q.rows && q.rows[id].state == Delivering ==> Retried(q, id, now).0 == q
    ensures SameBut(q, Retried(q, id, now).0, id)
  {
    if id in q.rows {
      assert q.rows[id].id == id;
    }
    hide Tidy;
  }

  lemma RetryExclusive(w: World, id: string)
    requires Tidy(w.q) && Exclusive(w)
    ensures Exclusive(Next(w, Retry(id)))
  {
    hide Tidy, Retried;
    RetriedFrame(w.q, id, w.now);
    if id in w.q.rows && w.q.rows[id].state != Delivering {
      HeldElsewhere(w.tasks, w.q, Retried(w.q, id, w.now).0, id, w.now);
    } else if id !in w.q.rows {
      HeldElsewhere(w.tasks, w.q, Retried(w.q, id, w.now).0, id, w.now);
    }
  }

  lemma EnqueueExclusive(w: World, d: Delivery)
    requires Tidy(w.q) && Exclusive(w) && d.id !in w.q.rows
    ensures Exclusive(w.(q := Enqueued(w.q, d).0))
  {
    EnqueuedFrame(w.q, d);
    hide Tidy, Enqueued, Grows;
    HeldElsewhere(w.tasks, w.q, Enqueued(w.q, d).0, d.id, w.now);
  }

  lemma NextExclusive(w: World, step: Step)
    requires Tidy(w.q) && Exclusive(w) && Enabled(w, step) && Prompt(w, step)
    ensures Exclusive(Next(w, step))
  {
    hide Tidy, Enqueued, Processed, Released, Retried, ClaimedOne;
    match step
    case Tick(_) =>
    case Enqueue(id, eventId, destinationId, url, maxAttempts) =>
      EnqueueExclusive(w, NewDelivery(id, eventId, destinationId, url, maxAttempts, w.now));
    case Claim(tid, worker, id) => ClaimExclusive(w, tid, worker, id);
    case Finish(tid, reply, share) => FinishExclusive(w, tid, reply, share);
    case Crash(_) =>
    case ReleaseStale => ReleaseExclusive(w);
    case Retry(id) => RetryExclusive(w, id);
  }

  lemma {:induction false} RunExclusive(w: World, steps: seq<Step>)
    requires Tidy(w.q) && Exclusive(w) && Allowed(w, steps) && AllPrompt(w, steps)
    ensures Exclusive(Run(w, steps))
    decreases |steps|
  {
    hide Enabled, Next, Tidy, Prompt, Exclusive;
    if steps != [] {
      NextExclusive(w, steps[0]);
      RunExclusive(Next(w, steps[0]), steps[1..]);
    }
  }

  /** No two workers attempt one delivery at the same time, and the row each works on is the one it
      claimed. */
  lemma OneAttemptAtATime(start: Time, steps: seq<Step>, tid: int, other: int)
    requires Allowed(Start(start), steps) && AllPrompt(Start(start), steps)
    requires var w := Run(Start(start), steps); tid in w.tasks && other in w.tasks
    ensures var w := Run(Start(start), steps);
      && w.tasks[tid].id in w.q.rows && w.q.rows[w.tasks[tid].id] == w.tasks[tid]
      && (tid != other ==> w.tasks[tid].id != w.tasks[other].id)
  {
    RunExclusive(Start(start), steps);
    var w := Run(Start(start), steps);
    assert Holds(w.tasks[tid], w.q, w.now);
    hide Run, Tidy, Allowed;
  }

  // ---- a success is undone only by hand ----

  /** The one step that takes a delivery out of `Succeeded`: a retry, or the record of an attempt that
      did not deliver, from a worker whose copy is out of date.  The code bounds an attempt and its
      recording by a timeout as long as the staleness limit, but starts that clock after the claim's: the
      second cause needs the delay between the two, and the recovery of stale locks to fall into it. */
  predicate Undoes(w: World, step: Step, id: string) {
    (step.Retry? && step.id == id)
    || (step.Finish? && step.tid in w.tasks && w.tasks[step.tid].id == id && !Delivered(step.reply))
  }

  lemma SuccessIsUndoneBy(w: World, step: Step, id: string)
    requires Tidy(w.q) && Enabled(w, step) && id in w.q.rows && w.q.rows[id].state == Succeeded
    ensures id in Next(w, step).q.rows
    ensures Next(w, step).q.rows[id].state != Succeeded <==> Undoes(w, step, id)
  {
    assert w.q.rows[id].id == id;
    hide Enqueued, Processed, Tidy, Record, RetryDelay, ClaimedOne, Retried, Released, Grows, Delivered;
    match step
    case Enqueue(newId, eventId, destinationId, url, maxAttempts) =>
      EnqueuedFrame(w.q, NewDelivery(newId, eventId, destinationId, url, maxAttempts, w.now));
    case Finish(tid, reply, share) => FinishOnSucceeded(w, tid, reply, share, id);
    case Claim(tid, worker, other) => ClaimedFrame(w.q, other, worker, w.now);
    case Retry(other) => RetriedRow(w.q, other, w.now, id);
    case ReleaseStale => ReleasedKeeps(w.q, STALE_AFTER, w.now, id);
    case _ =>
  }

  lemma ReleasedKeeps(q: Queue, olderThan: Time, now: Time, id: string)
    requires Tidy(q) && id in q.rows && q.rows[id].state == Succeeded
    ensures id in Released(q, olderThan, now).rows && Released(q, olderThan, now).rows[id] == q.rows[id]
  {
    hide Tidy;
  }

  lemma RetriedRow(q: Queue, other: string, now: Time, id: string)
    requires Tidy(q) && id in q.rows && q.rows[id].state == Succeeded
    ensures var q' := Retried(q, other, now).0; id in q'.rows && (q'.rows[id].state != Succeeded <==> other == id)
  {
    if other in q.rows {
      assert q.rows[other].id == other;
    }
    hide Tidy;
  }

  lemma FinishOnSucceeded(w: World, tid: int, reply: Reply, share: real, id: string)
    requires Tidy(w.q) && Enabled(w, Finish(tid, reply, share)) && id in w.q.rows && w.q.rows[id].state == Succeeded
    ensures id in Next(w, Finish(tid, reply, share)).q.rows
    ensures Next(w, Finish(tid, reply, share)).q.rows[id].state != Succeeded <==> w.tasks[tid].id == id && !Delivered(reply)
  {
    hide Tidy, Record, Processed;
    var c := w.tasks[tid];
    if c.id in w.q.rows {
      var d, a := ProcessedIsRecord(w.q, c, reply, share, w.now);
      RecordFrame(w.q, d, a);
    } else {
      MissingRow(w.q, c, reply, share, w.now);
    }
  }

  lemma MissingRow(q: Queue, c: Delivery, r: Reply, share: real, now: Time)
    requires Tidy(q) && c.id !in q.rows
    ensures Processed(q, c, r, share, now) == q
  {
  }

  /** With attempts that end in time, only a retry can do it. */
  lemma {:induction false} SuccessStays(w: World, steps: seq<Step>, id: string)
    requires Tidy(w.q) && Exclusive(w) && Allowed(w, steps) && AllPrompt(w, steps)
    requires id in w.q.rows && w.q.rows[id].state == Succeeded && Retry(id) !in steps
    ensures id in Run(w, steps).q.rows && Run(w, steps).q.rows[id].state == Succeeded
    decreases |steps|
  {
    hide Enabled, Next, Tidy, Prompt;
    if steps != [] {
      SuccessIsUndoneBy(w, steps[0], id);
      assert !Undoes(w, steps[0], id) by {
        if steps[0].Finish? && steps[0].tid in w.tasks {
          assert Holds(w.tasks[steps[0].tid], w.q, w.now);
        }
      }
      NextExclusive(w, steps[0]);
      SuccessStays(Next(w, steps[0]), steps[1..], id);
    }
  }

  // ---- how a late record undoes a success ----

  const FINE := Status(200)
  const BROKEN := Status(500)

  /** A worker's lock goes stale, another delivers, and the first records its failure after all. */
  function LateFailure(id: string, event: string, dest: string, url: string): seq<Step> {
    [Enqueue(id, event, dest, url, 0), Claim(1, "one", id), Tick(STALE_AFTER + 1), ReleaseStale,
     Claim(2, "two", id), Finish(2, FINE, 0.0), Finish(1, BROKEN, 0.0)]
  }

  lemma Onward(w: World, steps: seq<Step>, w1: World)
    requires Tidy(w.q) && steps != [] && Enabled(w, steps[0]) && w1 == Next(w, steps[0])
    requires Allowed(w1, steps[1..])
    ensures Allowed(w, steps) && Run(w, steps) == Run(w1, steps[1..])
  {
    hide Tidy, Enabled, Next;
  }

  /** One row, the attempt or attempts under way. */
  predicate Shows(w: World, id: string, d: Delivery, tasks: map<int, Delivery>) {
    id in w.q.rows && w.q.rows[id] == d && d.id == id && w.tasks == tasks
  }

  lemma ClaimShows(w: World, id: string, d: Delivery, tasks: map<int, Delivery>, tid: int, worker: string)
    requires Tidy(w.q) && Shows(w, id, d, tasks) && Due(d, w.now) && tid !in tasks
    ensures Enabled(w, Claim(tid, worker, id))
    ensures var w', c := Next(w, Claim(tid, worker, id)), Locked(d, worker, w.now); w'.now == w.now && Shows(w', id, c, tasks[tid := c])
  {
    ClaimedFrame(w.q, id, worker, w.now);
    hide Tidy, ClaimedOne;
  }

  lemma ReleaseShows(w: World, id: string, d: Delivery, tasks: map<int, Delivery>)
    requires Tidy(w.q) && Shows(w, id, d, tasks)
    ensures var w' := Next(w, ReleaseStale); w'.now == w.now && Shows(w', id, UnlessStale(d, STALE_AFTER, w.now), tasks)
  {
    hide Tidy;
  }

  lemma FinishShows(w: World, id: string, d: Delivery, tasks: map<int, Delivery>, tid: int, reply: Reply)
    requires Tidy(w.q) && Shows(w, id, d, tasks) && tid in tasks && tasks[tid].id == id
    ensures Enabled(w, Finish(tid, reply, 0.0))
    ensures var w', c := Next(w, Finish(tid, reply, 0.0)), tasks[tid];
      && w'.now == w.now && id in w'.q.rows && Shows(w', id, w'.q.rows[id], tasks - {tid})
      && (w'.q.rows[id].state == Succeeded <==> Delivered(reply))
      && (w'.q.rows[id].state == Failed <==> !Delivered(reply) && Retryable(reply) && c.attemptCount + 1 < c.maxAttempts)
  {
    assert w.q.rows[id].id == id;
    hide Tidy, RetryDelay, WithAttempt;
  }

  lemma EnqueueShows(now: Time, id: string, event: string, dest: string, url: string)
    ensures Enabled(Start(now), Enqueue(id, event, dest, url, 0))
    ensures var w := Next(Start(now), Enqueue(id, event, dest, url, 0));
      w.now == now && Shows(w, id, NewDelivery(id, event, dest, url, 0, now), map[])
  {
  }

  lemma LockGoesStale(now: Time, id: string, event: string, dest: string, url: string, steps: seq<Step>)
    returns (w1: World, w2: World, w3: World, one: Delivery)
    requires steps == LateFailure(id, event, dest, url)
    ensures |steps| == 7 && Tidy(Start(now).q) && Tidy(w1.q) && Tidy(w2.q) && Tidy(w3.q)
    ensures Enabled(Start(now), steps[0]) && w1 == Next(Start(now), steps[0]) && Enabled(w1, steps[1]) && w2 == Next(w1, steps[1])
    ensures Enabled(w2, steps[2]) && w3 == Next(w2, steps[2])
    ensures Shows(w3, id, one, map[1 := one]) && one.state == Delivering && one.attemptCount == 0 && one.maxAttempts > 1
    ensures one.lockedAt.Some? && one.lockedAt.value + STALE_AFTER < w3.now
  {
    EnqueueShows(now, id, event, dest, url);
    w1 := Next(Start(now), steps[0]);
    var row := NewDelivery(id, event, dest, url, 0, now);
    ClaimShows(w1, id, row, map[], 1, "one");
    w2 := Next(w1, steps[1]);
    one := Locked(row, "one", now);
    w3 := Next(w2, steps[2]);
    hide Tidy;
  }

  /** From the start: the delivery is delivered, and later shown as failed and due for another attempt. */
  lemma LateFailureUndoes(now: Time, id: string, event: string, dest: string, url: string)
    ensures var steps := LateFailure(id, event, dest, url);
      && Allowed(Start(now), steps[..6]) && Holding(Run(Start(now), steps[..6]), id, Succeeded)
      && Allowed(Start(now), steps) && Holding(Run(Start(now), steps), id, Failed)
  {
    hide *;
    var steps := LateFailure(id, event, dest, url);
    var w1, w2, w3, one := LockGoesStale(now, id, event, dest, url, steps);
    LateTail(id, event, dest, url);
    Slices(steps);
    RestOfLateFailure(w3, steps[3..], id, one);
    ThreeMore(Start(now), w1, w2, w3, steps, steps[3..]);
    ThreeMore(Start(now), w1, w2, w3, steps[..6], steps[3..][..3]);
  }

  lemma LateTail(id: string, event: string, dest: string, url: string)
    ensures var steps := LateFailure(id, event, dest, url);
      |steps| == 7 && steps[3..] == [ReleaseStale, Claim(2, "two", id), Finish(2, FINE, 0.0), Finish(1, BROKEN, 0.0)]
  {
  }

  lemma Slices(steps: seq<Step>)
    requires |steps| == 7
    ensures steps[..6][3..] == steps[3..][..3]
    ensures steps[..6][0] == steps[0] && steps[..6][1] == steps[1] && steps[..6][2] == steps[2]
  {
  }

  predicate Holding(w: World, id: string, state: State) { id in w.q.rows && w.q.rows[id].state == state }

  lemma ThreeMore(w0: World, w1: World, w2: World, w3: World, steps: seq<Step>, rest: seq<Step>)
    requires Tidy(w0.q) && Tidy(w1.q) && Tidy(w2.q) && Tidy(w3.q)
    requires |steps| >= 3 && steps[3..] == rest && Allowed(w3, rest)
    requires Enabled(w0, steps[0]) && w1 == Next(w0, steps[0]) && Enabled(w1, steps[1]) && w2 == Next(w1, steps[1])
    requires Enabled(w2, steps[2]) && w3 == Next(w2, steps[2])
    ensures Allowed(w0, steps) && Run(w0, steps) == Run(w3, rest)
  {
    hide Tidy, Enabled, Next, Allowed, Run;
    var one, two := steps[1..], steps[2..];
    assert one[1..] == two && two[1..] == rest && one[0] == steps[1] && two[0] == steps[2];
    Onward(w2, two, w3);
    Onward(w1, one, w2);
    Onward(w0, steps, w1);
  }

  lemma AnotherDelivers(w: World, steps: seq<Step>, id: string, one: Delivery) returns (w1: World, w2: World, w3: World)
    requires Tidy(w.q) && Shows(w, id, one, map[1 := one]) && one.state == Delivering && one.lockedAt.Some?
    requires one.lockedAt.value + STALE_AFTER < w.now
    requires |steps| == 4 && steps[0] == ReleaseStale && steps[1] == Claim(2, "two", id) && steps[2] == Finish(2, FINE, 0.0)
    ensures Tidy(w1.q) && Tidy(w2.q) && Tidy(w3.q) && Enabled(w, steps[0]) && w1 == Next(w, steps[0])
    ensures Enabled(w1, steps[1]) && w2 == Next(w1, steps[1]) && Enabled(w2, steps[2]) && w3 == Next(w2, steps[2])
    ensures Holding(w3, id, Succeeded) && Shows(w3, id, w3.q.rows[id], map[1 := one])
  {
    hide Tidy, Shows;
    ReleaseShows(w, id, one, map[1 := one]);
    w1 := Next(w, steps[0]);
    var free := UnlessStale(one, STALE_AFTER, w.now);
    var two := Locked(free, "two", w.now);
    var tasks, both := map[1 := one], map[1 := one][2 := two];
    assert both - {2} == tasks;
    ShownId(w, id, one, tasks);
    assert Enabled(w, steps[0]) && Due(free, w.now) && two.id == id && w1.now == w.now;
    hide Enabled, Next, Due, Locked, UnlessStale;
    ClaimShows(w1, id, free, tasks, 2, "two");
    w2 := Next(w1, steps[1]);
    assert Shows(w2, id, two, both) && both[2] == two;
    FinishShows(w2, id, two, both, 2, FINE);
    w3 := Next(w2, steps[2]);
  }

  lemma ShownId(w: World, id: string, d: Delivery, tasks: map<int, Delivery>)
    requires Shows(w, id, d, tasks)
    ensures d.id == id
  {
  }

  lemma RestOfLateFailure(w: World, steps: seq<Step>, id: string, one: Delivery)
    requires Tidy(w.q) && Shows(w, id, one, map[1 := one]) && one.state == Delivering && one.attemptCount == 0 && one.maxAttempts > 1
    requires one.lockedAt.Some? && one.lockedAt.value + STALE_AFTER < w.now
    requires steps == [ReleaseStale, Claim(2, "two", id), Finish(2, FINE, 0.0), Finish(1, BROKEN, 0.0)]
    ensures Allowed(w, steps[..3]) && Holding(Run(w, steps[..3]), id, Succeeded)
    ensures Allowed(w, steps) && Holding(Run(w, steps), id, Failed)
  {
    var early, last := steps[..3], steps[3..];
    assert early[0] == steps[0] && early[1] == steps[1] && early[2] == steps[2] && early[3..] == [];
    assert last[0] == steps[3] == Finish(1, BROKEN, 0.0) && last[1..] == [];
    assert !Delivered(BROKEN) && Retryable(BROKEN);
    ShownId(w, id, one, map[1 := one]);
    hide Tidy, Enabled, Next, Shows, Allowed, Run;
    var w1, w2, w3 := AnotherDelivers(w, steps, id, one);
    FinishShows(w3, id, w3.q.rows[id], map[1 := one], 1, BROKEN);
    var w4 := Next(w3, last[0]);
    hide Holding;
    RunsNothing(w3);
    ThreeMore(w, w1, w2, w3, early, []);
    RunsNothing(w4);
    assert Holding(w4, id, Failed) by { IsHolding(w4, id, Failed); }
    Onward(w3, last, w4);
    ThreeMore(w, w1, w2, w3, steps, last);
  }

  lemma IsHolding(w: World, id: string, state: State)
    requires id in w.q.rows && w.q.rows[id].state == state
    ensures Holding(w, id, state)
  {
  }

  lemma RunsNothing(w: World)
    requires Tidy(w.q)
    ensures Allowed(w, []) && Run(w, []) == w
  {
  }
}
