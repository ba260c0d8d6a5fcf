/** Every delivery ends: a bound on the work any run can spend on it, and a way to finish from
    everywhere. */
module DeliveryTermination {
  import opened Wrappers
  import opened Deliveries
  import opened DeliveryProtocol
  import opened DeliveryExclusion

  function One(b: bool): nat { if b then 1 else 0 }

  /** The worker that locked the row is still at it. */
  predicate Held(d: Delivery, tasks: map<int, Delivery>) {
    exists tid :: tid in tasks && tasks[tid] == d
  }

  /** Two steps for every attempt a row may still make, unless they are the lock holder's to make. */
  function RowRest(d: Delivery, tasks: map<int, Delivery>): int {
    if !CanGoOn(d) || (d.state == Delivering && Held(d, tasks)) then 0 else 2 * (d.maxAttempts - d.attemptCount)
  }

  /** What may yet come of an attempt under way at the delivery: its end, and the attempts after it. */
  function TaskRest(c: Delivery, id: string): int {
    if c.id == id then 2 * (c.maxAttempts - c.attemptCount) - 1 else 0
  }

  ghost function TasksRest(tasks: map<int, Delivery>, id: string): int
    decreases tasks.Keys
  {
    if exists tid :: tid in tasks then
      var tid :| tid in tasks;
      assert (tasks - {tid}).Keys == tasks.Keys - {tid};
      TaskRest(tasks[tid], id) + TasksRest(tasks - {tid}, id)
    else 0
  }

  ghost function Rest(w: World, id: string): int
    requires id in w.q.rows
  {
    RowRest(w.q.rows[id], w.tasks) + TasksRest(w.tasks, id)
  }

  /** A claim of the delivery, or the end of an attempt at it. */
  predicate Advances(w: World, step: Step, id: string) {
    (step.Claim? && step.id == id) || (step.Finish? && step.tid in w.tasks && w.tasks[step.tid].id == id)
  }

  predicate Abandons(w: World, step: Step, id: string) {
    step.Crash? && step.tid in w.tasks && w.tasks[step.tid].id == id
  }

  /** The lock of an attempt still under way is taken from it. */
  predicate Overtakes(w: World, step: Step, id: string) {
    step.ReleaseStale? && id in w.q.rows && Held(w.q.rows[id], w.tasks)
    && UnlessStale(w.q.rows[id], STALE_AFTER, w.now) != w.q.rows[id]
  }

  /** A step pays for itself, except that a crash may cost one step more and an overtaken attempt all
      the attempts of the delivery. */
  ghost predicate Counted(w: World, step: Step, id: string)
    requires Tidy(w.q) && Enabled(w, step) && id in w.q.rows
  {
    && id in Next(w, step).q.rows && Next(w, step).q.rows[id].maxAttempts == w.q.rows[id].maxAttempts
    && Rest(Next(w, step), id) + One(Advances(w, step, id))
       <= Rest(w, id) + One(Abandons(w, step, id))
          + (if Overtakes(w, step, id) then 2 * w.q.rows[id].maxAttempts else 0)
  }

  lemma {:induction false} TasksTake(tasks: map<int, Delivery>, tid: int, id: string)
    requires tid in tasks
    ensures TasksRest(tasks, id) == TaskRest(tasks[tid], id) + TasksRest(tasks - {tid}, id)
    decreases tasks.Keys
  {
    var first :| first in tasks && TasksRest(tasks, id) == TaskRest(tasks[first], id) + TasksRest(tasks - {first}, id);
    if first != tid {
      assert (tasks - {first}).Keys == tasks.Keys - {first} && (tasks - {tid}).Keys == tasks.Keys - {tid};
      hide TaskRest;
      TasksTake(tasks - {first}, tid, id);
      TasksTake(tasks - {tid}, first, id);
      assert tasks - {first} - {tid} == tasks - {tid} - {first};
    }
  }

  ghost predicate Copies(tasks: map<int, Delivery>) {
    forall tid :: tid in tasks ==> tasks[tid].attemptCount < tasks[tid].maxAttempts
  }

  lemma {:induction false} TasksOwe(tasks: map<int, Delivery>, id: string)
    requires Copies(tasks)
    ensures TasksRest(tasks, id) >= 0
    ensures (exists tid :: tid in tasks && tasks[tid].id == id) ==> TasksRest(tasks, id) > 0
    decreases tasks.Keys
  {
    if tid :| tid in tasks && tasks[tid].id == id {
      TasksTake(tasks, tid, id);
      TasksOwe(tasks - {tid}, id);
    } else if tid :| tid in tasks {
      TasksTake(tasks, tid, id);
      TasksOwe(tasks - {tid}, id);
    }
  }

  lemma {:induction false} NoTasks(tasks: map<int, Delivery>, id: string)
    requires forall tid :: tid in tasks ==> tasks[tid].id != id
    ensures TasksRest(tasks, id) == 0
    decreases tasks.Keys
  {
    if tid :| tid in tasks {
      TasksTake(tasks, tid, id);
      NoTasks(tasks - {tid}, id);
    }
  }

  lemma HeldWithout(d: Delivery, tasks: map<int, Delivery>, tid: int)
    requires tid in tasks && tasks[tid] != d
    ensures Held(d, tasks - {tid}) == Held(d, tasks)
  {
    if Held(d, tasks) {
      var t :| t in tasks && tasks[t] == d;
      assert t in tasks - {tid};
    }
  }

  lemma HeldWith(d: Delivery, tasks: map<int, Delivery>, tid: int, c: Delivery)
    requires tid !in tasks
    ensures Held(d, tasks[tid := c]) == (Held(d, tasks) || c == d)
  {
    var after := tasks[tid := c];
    if Held(d, tasks) {
      var t :| t in tasks && tasks[t] == d;
      assert t in after && after[t] == d;
    }
    if c == d {
      assert tid in after && after[tid] == d;
    }
  }

  lemma ClaimCounted(w: World, tid: int, worker: string, k: string, id: string)
    requires Sound(w) && Enabled(w, Claim(tid, worker, k)) && id in w.q.rows
    ensures Counted(w, Claim(tid, worker, k), id)
  {
    ClaimPays(w, tid, worker, k, id);
    hide Tidy, ClaimedOne, Held, TasksRest, RowsSound, CopySound, Due, Locked, RowRest;
  }

  lemma ClaimPays(w: World, tid: int, worker: string, k: string, id: string)
    requires Tidy(w.q) && tid !in w.tasks && k in w.q.rows && Due(w.q.rows[k], w.now) && id in w.q.rows
    ensures var q', tasks' := ClaimedOne(w.q, k, worker, w.now), w.tasks[tid := Locked(w.q.rows[k], worker, w.now)];
      && id in q'.rows && q'.rows[id].maxAttempts == w.q.rows[id].maxAttempts
      && RowRest(q'.rows[id], tasks') + TasksRest(tasks', id) + One(k == id)
         <= RowRest(w.q.rows[id], w.tasks) + TasksRest(w.tasks, id)
  {
    assert w.q.rows[k].id == k && w.q.rows[id].id == id;
    ClaimedFrame(w.q, k, worker, w.now);
    var c := Locked(w.q.rows[k], worker, w.now);
    assert w.tasks[tid := c] - {tid} == w.tasks && c.maxAttempts == w.q.rows[k].maxAttempts;
    hide Tidy, ClaimedOne, Held, TasksRest, Due, Locked, RowRest, TaskRest;
    TasksTake(w.tasks[tid := c], tid, id);
    if k == id {
      ClaimedRest(w.q.rows[id], worker, w.now, w.tasks, tid);
    } else {
      LockedElsewhere(w, tid, worker, k, id);
    }
  }

  lemma ClaimedRest(d: Delivery, worker: string, now: Time, tasks: map<int, Delivery>, tid: int)
    requires Due(d, now) && tid !in tasks
    ensures var c := Locked(d, worker, now);
      RowRest(c, tasks[tid := c]) + TaskRest(c, d.id) + 1 <= RowRest(d, tasks)
  {
    HeldWith(Locked(d, worker, now), tasks, tid, Locked(d, worker, now));
    hide Held;
  }

  lemma LockedElsewhere(w: World, tid: int, worker: string, k: string, id: string)
    requires tid !in w.tasks && k in w.q.rows && id in w.q.rows && w.q.rows[k].id != w.q.rows[id].id && w.q.rows[id].id == id
    ensures var c := Locked(w.q.rows[k], worker, w.now);
      RowRest(w.q.rows[id], w.tasks[tid := c]) == RowRest(w.q.rows[id], w.tasks) && TaskRest(c, id) == 0
  {
    HeldWith(w.q.rows[id], w.tasks, tid, Locked(w.q.rows[k], worker, w.now));
    hide Held;
  }

  /** The row an attempt leaves owes less than the attempt did. */
  lemma SettledLess(c: Delivery, d: Delivery, a: Attempt, tasks: map<int, Delivery>)
    requires Settles(c, d, a) && d.maxAttempts == c.maxAttempts && c.attemptCount < c.maxAttempts
    ensures RowRest(d, tasks) + 1 <= TaskRest(c, c.id) && d.id == c.id
  {
  }

  lemma RowOwes(w: World, id: string)
    requires Sound(w) && id in w.q.rows
    ensures 0 <= RowRest(w.q.rows[id], w.tasks) <= 2 * w.q.rows[id].maxAttempts
  {
    AttemptsOf(w.q, id);
    assert RowSound(w.q.rows[id], w.q.attempts[id]);
    hide Tidy, Held;
  }

  lemma FinishCounted(w: World, tid: int, reply: Reply, share: real, id: string)
    requires Sound(w) && Enabled(w, Finish(tid, reply, share)) && id in w.q.rows
    ensures Counted(w, Finish(tid, reply, share), id)
  {
    FinishPays(w, tid, reply, share, id);
    hide Tidy, Processed, Held, RowsSound, CopySound, TasksRest, RowRest;
  }

  lemma FinishPays(w: World, tid: int, reply: Reply, share: real, id: string)
    requires Sound(w) && tid in w.tasks && id in w.q.rows
    ensures var q', tasks' := Processed(w.q, w.tasks[tid], reply, share, w.now), w.tasks - {tid};
      && id in q'.rows && q'.rows[id].maxAttempts == w.q.rows[id].maxAttempts
      && RowRest(q'.rows[id], tasks') + TasksRest(tasks', id) + One(w.tasks[tid].id == id)
         <= RowRest(w.q.rows[id], w.tasks) + TasksRest(w.tasks, id)
  {
    var c := w.tasks[tid];
    assert CopySound(c, w.q) && w.q.rows[id].id == id;
    RowOwes(w, id);
    hide Tidy, Processed, Held, RowsSound, TasksRest, RowRest, TaskRest;
    TasksTake(w.tasks, tid, id);
    if c.id == id {
      FinishedRow(w, tid, reply, share);
    } else {
      OtherFinished(w, tid, reply, share, id);
      OtherRow(w, tid, id);
    }
  }

  lemma FinishedRow(w: World, tid: int, reply: Reply, share: real)
    requires Tidy(w.q) && tid in w.tasks && CopySound(w.tasks[tid], w.q)
    ensures var c, q' := w.tasks[tid], Processed(w.q, w.tasks[tid], reply, share, w.now);
      c.id in q'.rows && q'.rows[c.id].maxAttempts == w.q.rows[c.id].maxAttempts
      && RowRest(q'.rows[c.id], w.tasks - {tid}) + 1 <= TaskRest(c, c.id)
  {
    var c := w.tasks[tid];
    hide Tidy, Processed, Record, Held, RowRest, TaskRest, Settles, OnlyAt;
    var d, a := ProcessedIsRecord(w.q, c, reply, share, w.now);
    SettledLess(c, d, a, w.tasks - {tid});
    RecordFrame(w.q, d, a);
  }

  lemma OtherFinished(w: World, tid: int, reply: Reply, share: real, id: string)
    requires Tidy(w.q) && tid in w.tasks && CopySound(w.tasks[tid], w.q) && id in w.q.rows && id != w.tasks[tid].id
    ensures var q' := Processed(w.q, w.tasks[tid], reply, share, w.now); id in q'.rows && q'.rows[id] == w.q.rows[id]
  {
    hide Tidy, Processed, Record, Settles;
    var d, a := ProcessedIsRecord(w.q, w.tasks[tid], reply, share, w.now);
    SettledId(w.tasks[tid], d, a);
    RecordFrame(w.q, d, a);
  }

  /** The end of an attempt at another delivery takes nothing away. */
  lemma OtherRow(w: World, tid: int, id: string)
    requires tid in w.tasks && id in w.q.rows && w.q.rows[id].id == id && w.tasks[tid].id != id
    ensures RowRest(w.q.rows[id], w.tasks - {tid}) == RowRest(w.q.rows[id], w.tasks) && TaskRest(w.tasks[tid], id) == 0
  {
    HeldWithout(w.q.rows[id], w.tasks, tid);
    hide Held;
  }

  lemma CrashCounted(w: World, tid: int, id: string)
    requires Sound(w) && Enabled(w, Crash(tid)) && id in w.q.rows
    ensures Counted(w, Crash(tid), id)
  {
    assert w.q.rows[id].id == id && CopySound(w.tasks[tid], w.q);
    hide Tidy, Held, RowsSound, TasksRest;
    TasksTake(w.tasks, tid, id);
    if w.tasks[tid] != w.q.rows[id] {
      HeldWithout(w.q.rows[id], w.tasks, tid);
    }
  }

  lemma ReleaseCounted(w: World, id: string)
    requires Sound(w) && id in w.q.rows
    ensures Counted(w, ReleaseStale, id)
  {
    assert w.q.rows[id].id == id;
    AttemptsOf(w.q, id);
    assert RowSound(w.q.rows[id], w.q.attempts[id]);
    hide Tidy, Held, RowsSound, TasksRest;
  }

  lemma NextCounted(w: World, step: Step, id: string)
    requires Sound(w) && Enabled(w, step) && id in w.q.rows && step != Retry(id)
    ensures Counted(w, step, id)
  {
    hide Tidy, RowsSound, CopySound, Enqueued, Retried, Held, TasksRest;
    match step
    case Tick(_) =>
    case Enqueue(newId, eventId, destinationId, url, maxAttempts) =>
      EnqueuedFrame(w.q, NewDelivery(newId, eventId, destinationId, url, maxAttempts, w.now));
    case Claim(tid, worker, k) => ClaimCounted(w, tid, worker, k, id);
    case Finish(tid, reply, share) => FinishCounted(w, tid, reply, share, id);
    case Crash(tid) => CrashCounted(w, tid, id);
    case ReleaseStale => ReleaseCounted(w, id);
    case Retry(k) => RetriedFrame(w.q, k, w.now);
  }

  // ---- over a run ----

  function Advanced(w: World, steps: seq<Step>, id: string): nat
    requires Tidy(w.q) && Allowed(w, steps)
    decreases |steps|
  {
    if steps == [] then 0 else One(Advances(w, steps[0], id)) + Advanced(Next(w, steps[0]), steps[1..], id)
  }

  function Abandoned(w: World, steps: seq<Step>, id: string): nat
    requires Tidy(w.q) && Allowed(w, steps)
    decreases |steps|
  {
    if steps == [] then 0 else One(Abandons(w, steps[0], id)) + Abandoned(Next(w, steps[0]), steps[1..], id)
  }

  function Overtaken(w: World, steps: seq<Step>, id: string): nat
    requires Tidy(w.q) && Allowed(w, steps)
    decreases |steps|
  {
    if steps == [] then 0 else One(Overtakes(w, steps[0], id)) + Overtaken(Next(w, steps[0]), steps[1..], id)
  }

  lemma {:induction false} RunCounted(w: World, steps: seq<Step>, id: string)
    requires Sound(w) && Allowed(w, steps) && id in w.q.rows && Retry(id) !in steps
    ensures id in Run(w, steps).q.rows
    ensures Rest(Run(w, steps), id) + Advanced(w, steps, id)
      <= Rest(w, id) + Abandoned(w, steps, id) + 2 * w.q.rows[id].maxAttempts * Overtaken(w, steps, id)
    decreases |steps|
  {
    hide Enabled, Next, Tidy, RowsSound, CopySound, Rest, Advances, Abandons, Overtakes;
    if steps != [] {
      NextCounted(w, steps[0], id);
      NextSound(w, steps[0]);
      RunCounted(Next(w, steps[0]), steps[1..], id);
      var b := One(Overtakes(w, steps[0], id));
      var max, rest := w.q.rows[id].maxAttempts, Overtaken(Next(w, steps[0]), steps[1..], id);
      assert 2 * max * (b + rest) == 2 * max * b + 2 * max * rest;
    }
  }

  /** Nothing is left to do exactly when the delivery has ended and no attempt at it is under way. */
  lemma RestIsNothing(w: World, id: string)
    requires Sound(w) && id in w.q.rows
    ensures Rest(w, id) >= 0
    ensures Rest(w, id) == 0
      <==> Terminal(w.q.rows[id].state) && forall tid :: tid in w.tasks ==> w.tasks[tid].id != id
  {
    assert Copies(w.tasks);
    assert w.q.rows[id].id == id;
    TasksOwe(w.tasks, id);
    AttemptsOf(w.q, id);
    assert RowSound(w.q.rows[id], w.q.attempts[id]);
    hide Tidy, TasksRest, RowsSound, CopySound;
    if forall tid :: tid in w.tasks ==> w.tasks[tid].id != id {
      NoTasks(w.tasks, id);
    }
  }

  /** Every delivery ends, without a retry by hand, whatever workers do and however late they do it: the
      claims and ends of attempts at it are no more than what was left to do, one for each crash, and two
      for each of its allowed attempts whenever an attempt under way was overtaken.  Once they are that
      many, it has ended and no attempt at it is under way. */
  lemma EveryDeliveryEnds(w: World, steps: seq<Step>, id: string)
    requires Sound(w) && Allowed(w, steps) && id in w.q.rows && Retry(id) !in steps
    ensures id in Run(w, steps).q.rows
    ensures var bound := Rest(w, id) + Abandoned(w, steps, id) + 2 * w.q.rows[id].maxAttempts * Overtaken(w, steps, id);
      && Advanced(w, steps, id) <= bound
      && (Advanced(w, steps, id) == bound ==>
            Terminal(Run(w, steps).q.rows[id].state)
            && forall tid :: tid in Run(w, steps).tasks ==> Run(w, steps).tasks[tid].id != id)
  {
    RunCounted(w, steps, id);
    RunSound(w, steps);
    RestIsNothing(Run(w, steps), id);
    hide Sound, Run, Rest, Advanced, Abandoned, Overtaken, Allowed, Tidy;
  }

  /** A delivery just queued has two steps for each attempt to go. */
  lemma RestOfNew(w: World, id: string)
    requires Sound(w) && id in w.q.rows && forall tid :: tid in w.tasks ==> w.tasks[tid].id != id
    ensures Rest(w, id) <= 2 * w.q.rows[id].maxAttempts
  {
    RowOwes(w, id);
    NoTasks(w.tasks, id);
    hide Sound, RowRest, TasksRest;
  }

  // ---- attempts that end in time ----

  lemma RestIsTwoEach(w: World, id: string)
    requires Sound(w) && Exclusive(w) && id in w.q.rows
    ensures Rest(w, id) <= 2 * w.q.rows[id].maxAttempts
  {
    RowOwes(w, id);
    if tid :| tid in w.tasks && w.tasks[tid].id == id {
      assert Holds(w.tasks[tid], w.q, w.now) && CopySound(w.tasks[tid], w.q);
      assert Held(w.q.rows[id], w.tasks);
      TasksTake(w.tasks, tid, id);
      NoTasks(w.tasks - {tid}, id);
    } else {
      RestOfNew(w, id);
    }
  }

  lemma NoneIsOvertaken(w: World, step: Step, id: string)
    requires Exclusive(w)
    ensures !Overtakes(w, step, id)
  {
    if step.ReleaseStale? && id in w.q.rows && Held(w.q.rows[id], w.tasks) {
      var tid :| tid in w.tasks && w.tasks[tid] == w.q.rows[id];
      assert Holds(w.tasks[tid], w.q, w.now);
    }
  }

  lemma {:induction false} NeverOvertaken(w: World, steps: seq<Step>, id: string)
    requires Tidy(w.q) && Exclusive(w) && Allowed(w, steps) && AllPrompt(w, steps)
    ensures Overtaken(w, steps, id) == 0
    decreases |steps|
  {
    hide Enabled, Next, Tidy, Prompt, Exclusive, Overtakes;
    if steps != [] {
      NoneIsOvertaken(w, steps[0], id);
      NextExclusive(w, steps[0]);
      NeverOvertaken(Next(w, steps[0]), steps[1..], id);
    }
  }

  lemma NoneAtAll(each: int, n: nat)
    requires n == 0
    ensures each * n == 0
  {
  }

  /** With attempts that end in time nothing is overtaken: two steps for each allowed attempt, and one
      for each crash, are all a delivery can still take. */
  lemma TimelyDeliveryEnds(w: World, steps: seq<Step>, id: string)
    requires Sound(w) && Exclusive(w) && Allowed(w, steps) && AllPrompt(w, steps) && id in w.q.rows && Retry(id) !in steps
    ensures id in Run(w, steps).q.rows
    ensures Advanced(w, steps, id) <= 2 * w.q.rows[id].maxAttempts + Abandoned(w, steps, id)
    ensures Advanced(w, steps, id) == 2 * w.q.rows[id].maxAttempts + Abandoned(w, steps, id)
      ==> Terminal(Run(w, steps).q.rows[id].state)
  {
    NeverOvertaken(w, steps, id);
    hide Sound, Exclusive, Run, Rest, Advanced, Abandoned, Overtaken, Allowed, AllPrompt, Tidy;
    EveryDeliveryEnds(w, steps, id);
    RestIsTwoEach(w, id);
    NoneAtAll(2 * w.q.rows[id].maxAttempts, Overtaken(w, steps, id));
  }

  // ---- a way to finish from everywhere ----

  /** No crash, no retry, and every attempt ends in time. */
  ghost predicate Orderly(w: World, steps: seq<Step>)
    requires Tidy(w.q)
    decreases |steps|
  {
    steps == []
    || (Enabled(w, steps[0]) && Prompt(w, steps[0]) && !steps[0].Crash? && !steps[0].Retry?
        && Orderly(Next(w, steps[0]), steps[1..]))
  }

  lemma {:induction false} OrderlyIsAllowed(w: World, steps: seq<Step>)
    requires Tidy(w.q) && Orderly(w, steps)
    ensures Allowed(w, steps) && AllPrompt(w, steps)
    decreases |steps|
  {
    hide Tidy, Enabled, Next, Prompt;
    if steps != [] {
      OrderlyIsAllowed(Next(w, steps[0]), steps[1..]);
    }
  }

  /** Whatever follows an orderly first step is reached through it. */
  lemma OneMore(w: World, step: Step, rest: seq<Step>)
    requires Tidy(w.q) && Enabled(w, step) && Prompt(w, step) && !step.Crash? && !step.Retry?
    requires Orderly(Next(w, step), rest)
    ensures Orderly(w, [step] + rest) && Allowed(w, [step] + rest) && Allowed(Next(w, step), rest)
    ensures Run(w, [step] + rest) == Run(Next(w, step), rest)
  {
    hide Tidy, Enabled, Next, Prompt;
    assert ([step] + rest)[1..] == rest;
    OrderlyIsAllowed(w, [step] + rest);
    OrderlyIsAllowed(Next(w, step), rest);
  }

  ghost predicate EndsFor(w: World, steps: seq<Step>, id: string)
    requires Tidy(w.q)
  {
    Orderly(w, steps) && Allowed(w, steps) && id in Run(w, steps).q.rows && Terminal(Run(w, steps).q.rows[id].state)
    && forall tid :: tid !in Run(w, steps).tasks
  }

  lemma EndsEarlier(w: World, step: Step, rest: seq<Step>, id: string)
    requires Tidy(w.q) && Enabled(w, step) && Prompt(w, step) && !step.Crash? && !step.Retry?
    requires EndsFor(Next(w, step), rest, id)
    ensures EndsFor(w, [step] + rest, id)
  {
    hide Tidy, Enabled, Next, Prompt;
    OneMore(w, step, rest);
  }

  lemma FinishEnds(w: World, tid: int, id: string) returns (steps: seq<Step>)
    requires Tidy(w.q) && tid in w.tasks && w.tasks[tid].id == id && id in w.q.rows && forall t :: t in w.tasks ==> t == tid
    ensures EndsFor(w, steps, id)
  {
    var c := w.tasks[tid];
    var step := Finish(tid, FINE, 0.0);
    hide Tidy, Processed, Record;
    var d, a := ProcessedIsRecord(w.q, c, FINE, 0.0, w.now);
    RecordFrame(w.q, d, a);
    var w' := Next(w, step);
    assert EndsFor(w', [], id);
    hide Next, EndsFor;
    EndsEarlier(w, step, [], id);
    steps := [step] + [];
  }

  lemma DueEnds(w: World, id: string) returns (steps: seq<Step>)
    requires Tidy(w.q) && id in w.q.rows && Due(w.q.rows[id], w.now) && forall tid :: tid !in w.tasks
    ensures EndsFor(w, steps, id)
  {
    assert w.q.rows[id].id == id;
    ClaimedFrame(w.q, id, "worker", w.now);
    var step := Claim(0, "worker", id);
    hide Tidy, ClaimedOne;
    var w' := Next(w, step);
    hide EndsFor;
    var rest := FinishEnds(w', 0, id);
    EndsEarlier(w, step, rest, id);
    steps := [step] + rest;
  }

  lemma WaitingEnds(w: World, id: string) returns (steps: seq<Step>)
    requires Tidy(w.q) && id in w.q.rows && (w.q.rows[id].state == Pending || w.q.rows[id].state == Failed) && (forall tid :: tid !in w.tasks)
    ensures EndsFor(w, steps, id)
  {
    var wait := w.q.rows[id].nextAttemptAt - w.now;
    var step := Tick(if wait < 0 then 0 else wait);
    hide Tidy, EndsFor;
    var rest := DueEnds(Next(w, step), id);
    EndsEarlier(w, step, rest, id);
    steps := [step] + rest;
  }

  lemma AbandonedEnds(w: World, id: string) returns (steps: seq<Step>)
    requires Tidy(w.q) && id in w.q.rows && w.q.rows[id].state == Delivering && w.q.rows[id].lockedAt.Some? && (forall tid :: tid !in w.tasks)
    ensures EndsFor(w, steps, id)
  {
    var wait := w.q.rows[id].lockedAt.value + STALE_AFTER + 1 - w.now;
    var step := Tick(if wait < 0 then 0 else wait);
    hide Tidy, EndsFor;
    var w' := Next(w, step);
    var rest := WaitingEnds(Next(w', ReleaseStale), id);
    EndsEarlier(w', ReleaseStale, rest, id);
    EndsEarlier(w, step, [ReleaseStale] + rest, id);
    steps := [step] + ([ReleaseStale] + rest);
  }

  /** From every state a delivery can still be brought to an end without an operator: the attempts under
      way finish, an abandoned lock is released, and it is tried. */
  lemma CanAlwaysEnd(w: World, id: string) returns (steps: seq<Step>)
    requires Sound(w) && id in w.q.rows
    ensures Tidy(w.q) && EndsFor(w, steps, id)
    decreases |w.tasks|
  {
    AttemptsOf(w.q, id);
    assert RowSound(w.q.rows[id], w.q.attempts[id]);
    hide RowsSound, CopySound, Numbered;
    if tid :| tid in w.tasks {
      hide Tidy, EndsFor;
      var step := Finish(tid, FINE, 0.0);
      var w' := Next(w, step);
      NextSound(w, step);
      Fewer(w.tasks, tid);
      assert id in w'.q.rows by { hide Processed; assert Grows(w.q, w'.q); }
      var rest := CanAlwaysEnd(w', id);
      EndsEarlier(w, step, rest, id);
      steps := [step] + rest;
    } else if Terminal(w.q.rows[id].state) {
      steps := [];
    } else if w.q.rows[id].state == Delivering {
      steps := AbandonedEnds(w, id);
    } else {
      steps := WaitingEnds(w, id);
    }
  }

  lemma Fewer(tasks: map<int, Delivery>, tid: int)
    requires tid in tasks
    ensures |tasks - {tid}| < |tasks|
  {
    assert (tasks - {tid}).Keys == tasks.Keys - {tid};
    assert |tasks.Keys - {tid}| == |tasks.Keys| - 1;
  }
}
