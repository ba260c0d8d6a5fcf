/** The payout protocol's promises, over every run. */
module PayoutTheorems {
  import opened Wrappers
  import opened PayoutStatuses
  import opened PayoutStore
  import opened PayoutService
  import opened PayoutEffects
  import opened PayoutProtocol
  import opened PayoutSafety
  import Iris

  // ---- at most one transfer ----

  /** However workers, stale copies, lost answers and crashes interleave, a payout's key never starts
      a second transfer, as long as requests reach the gateway in time. */
  lemma AtMostOneTransfer(start: Time, steps: seq<Step>, key: string)
    requires Allowed(Start(start), steps) && InTime(Start(start), steps)
    ensures Transfers(Run(Start(start), steps).gateway, key) <= 1
  {
    StartSafe(start, true);
    RunSafe(Start(start), steps, true);
    var w := Run(Start(start), steps);
    hide Run, Allowed, InTime, Tidy, RowsSafe, Path;
    if key in w.store.payouts {
      assert KeySafeAt(w.store, w.gateway, w.firstSend, w.now, true, key);
    }
  }

  // ---- how many transfers, whatever the timing ----

  datatype Arrival = Arrival(at: Time, accept: bool)

  /** The requests under a key as they reach the gateway. */
  function Arrivals(w: World, steps: seq<Step>, key: string): seq<Arrival>
    requires Tidy(w.store) && Allowed(w, steps)
    decreases |steps|
  {
    if steps == [] then []
    else Arriving(w, steps[0], key) + Arrivals(Next(w, steps[0]), steps[1..], key)
  }

  function Arriving(w: World, step: Step, key: string): seq<Arrival> {
    if step.Receive? && step.tid in w.wire && w.wire[step.tid].key == key then [Arrival(w.now, step.accept)] else []
  }

  /** The arrivals that are decided afresh and accepted: an arrival within a day of the last one decided
      is answered from memory. */
  function DecidedAfresh(arrivals: seq<Arrival>, last: Option<Time>): nat {
    if arrivals == [] then 0
    else
      var a := arrivals[0];
      if last.Some? && a.at < last.value + RETENTION then DecidedAfresh(arrivals[1..], last)
      else (if a.accept then 1 else 0) + DecidedAfresh(arrivals[1..], Some(a.at))
  }

  function LastDecided(g: Gateway, key: string): Option<Time> {
    if key in g.records then Some(g.records[key].since) else None
  }

  lemma OtherStepsStartNothing(w: World, step: Step, key: string)
    requires Tidy(w.store) && Enabled(w, step) && !step.Receive?
    ensures var g, g' := w.gateway, Next(w, step).gateway;
      Transfers(g', key) == Transfers(g, key) && LastDecided(g', key) == LastDecided(g, key)
  {
    hide Tidy, Judge, Iris.CreateOutcome, Requesting, Inserted, Approving, Rejecting, CreateRecorded, PollRecorded,
         Touched, NewPayout, Iris.HeaderKey, Iris.Sendable, Iris.GetPayout;
  }

  lemma ArrivalCounts(w: World, step: Step, key: string, rest: seq<Arrival>)
    requires Tidy(w.store) && Enabled(w, step)
    ensures var g, g' := w.gateway, Next(w, step).gateway;
      Transfers(g, key) + DecidedAfresh(Arriving(w, step, key) + rest, LastDecided(g, key))
      == Transfers(g', key) + DecidedAfresh(rest, LastDecided(g', key))
  {
    if step.Receive? {
      ReceiveCounts(w, step.tid, step.accept, step.reference, step.x, key, rest);
    } else {
      OtherStepsStartNothing(w, step, key);
      assert [] + rest == rest;
      hide Tidy, Enabled, Next, DecidedAfresh, LastDecided, Transfers;
    }
  }

  lemma ReceiveCounts(w: World, tid: int, accept: bool, reference: string, x: Iris.Exchange, key: string, rest: seq<Arrival>)
    requires Tidy(w.store) && Enabled(w, Receive(tid, accept, reference, x))
    ensures var step := Receive(tid, accept, reference, x); var g, g' := w.gateway, Next(w, step).gateway;
      Transfers(g, key) + DecidedAfresh(Arriving(w, step, key) + rest, LastDecided(g, key))
      == Transfers(g', key) + DecidedAfresh(rest, LastDecided(g', key))
  {
    hide Tidy;
    var arriving := Arriving(w, Receive(tid, accept, reference, x), key);
    if arriving == [] {
      assert [] + rest == rest;
    } else {
      assert (arriving + rest)[0] == arriving[0] && (arriving + rest)[1..] == rest;
    }
  }

  lemma {:induction false} RunCounts(w: World, steps: seq<Step>, key: string)
    requires Tidy(w.store) && Allowed(w, steps)
    ensures Transfers(Run(w, steps).gateway, key)
      == Transfers(w.gateway, key) + DecidedAfresh(Arrivals(w, steps, key), LastDecided(w.gateway, key))
    decreases |steps|
  {
    hide Tidy, Enabled, Next, DecidedAfresh, LastDecided, Transfers, Arriving;
    if steps == [] {
      NothingDecided(LastDecided(w.gateway, key));
    } else {
      RunCounts(Next(w, steps[0]), steps[1..], key);
      ArrivalCounts(w, steps[0], key, Arrivals(Next(w, steps[0]), steps[1..], key));
    }
  }

  lemma NothingDecided(last: Option<Time>)
    ensures DecidedAfresh([], last) == 0
  {
  }

  /** Over any run, timely or not, the transfers under a key are exactly its arrivals that were decided
      afresh and accepted. */
  lemma TransfersAreArrivals(start: Time, steps: seq<Step>, key: string)
    requires Allowed(Start(start), steps)
    ensures Transfers(Run(Start(start), steps).gateway, key) == DecidedAfresh(Arrivals(Start(start), steps, key), None)
  {
    assert Transfers(Start(start).gateway, key) == 0 && LastDecided(Start(start).gateway, key) == None;
    hide Run, Allowed, Arrivals, DecidedAfresh;
    RunCounts(Start(start), steps, key);
  }

  // ---- history ----

  /** In every reachable state, timely or not, a payout's recorded statuses form a path of allowed
      moves without repeats, of at most five entries, ending in the stored status; each recorded row
      is an allowed edge of its own; and the announced events are those of the path. */
  lemma HistoryIsAPath(start: Time, steps: seq<Step>, id: string)
    requires Allowed(Start(start), steps)
    requires id in Run(Start(start), steps).store.payouts
    ensures var s := Run(Start(start), steps).store; var path := Path(s, id);
      && IsPath(path) && 0 < |path| <= 5 && path[|path| - 1] == s.payouts[id].status
      && (forall i, j :: 0 <= i < j < |path| ==> path[i] != path[j])
      && (forall i :: 0 < i < |path| ==> Honours(s.trail[id][i], s.payouts[id].facts))
      && s.notices[id] == Announced(path)
  {
    var w := RunFacts(start, steps, id);
    hide Run, Allowed, Tidy, Honours, Announced, IsPath;
    PathIsShort(Path(w.store, id));
  }

  /** In every reachable state a row carries the time of the outcome it shows, an administrator never
      released what they asked for, and no payout is both released and refused by one. */
  lemma RowsAreStamped(start: Time, steps: seq<Step>, id: string)
    requires Allowed(Start(start), steps) && id in Run(Start(start), steps).store.payouts
    ensures var p := Run(Start(start), steps).store.payouts[id];
      && (p.status == Submitted ==> p.submittedAt.Some?) && (p.status == Completed ==> p.completedAt.Some?)
      && (p.status == Failed ==> p.failedAt.Some?) && (p.status == Rejected ==> p.rejectedAt.Some?)
      && (p.approvedBy.Some? && p.facts.requestedBy.Some? ==> p.approvedBy != p.facts.requestedBy)
      && !(p.approvedAt.Some? && p.rejectedAt.Some?)
  {
    var w := RunFacts(start, steps, id);
    hide Run, Allowed, Tidy, PathFits, TrailSafe, KeySafeAt, Safe;
  }

  lemma {:induction false} RunGrows(w: World, steps: seq<Step>)
    requires Safe(w, false) && Allowed(w, steps)
    ensures Grows(w.store, Run(w, steps).store)
    decreases |steps|
  {
    SafeIsTidy(w, false);
    hide Safe, Enabled, Next, Tidy, Grows;
    if steps == [] {
      GrowsFromItself(w.store);
    } else {
      NextSafe(w, steps[0], false);
      NextGrows(w, steps[0]);
      RunGrows(Next(w, steps[0]), steps[1..]);
      GrowsOn(w.store, Next(w, steps[0]).store, Run(w, steps).store);
    }
  }

  lemma GrowsFromItself(s: Store)
    requires Tidy(s)
    ensures Grows(s, s)
  {
    hide Tidy;
  }

  lemma GrowsOn(s: Store, s': Store, s'': Store)
    requires Tidy(s) && Tidy(s') && Tidy(s'') && Grows(s, s') && Grows(s', s'')
    ensures Grows(s, s'')
  {
    hide History, KeepsStamps;
    forall id | id in s.payouts
      ensures id in s''.payouts && s''.payouts[id].facts == s.payouts[id].facts
      ensures KeepsStamps(s.payouts[id], s''.payouts[id]) && History(s.trail[id]) <= History(s''.trail[id])
    {
      StampsOn(s.payouts[id], s'.payouts[id], s''.payouts[id]);
    }
  }

  lemma StampsOn(p: Payout, q: Payout, r: Payout)
    requires KeepsStamps(p, q) && KeepsStamps(q, r)
    ensures KeepsStamps(p, r)
  {
  }

  /** What a payout shows at one time it shows ever after: its amount, destination, key and requester,
      the times taken so far, and its history so far. */
  lemma NothingIsRewritten(start: Time, before: seq<Step>, after: seq<Step>, id: string)
    requires Allowed(Start(start), before) && id in Run(Start(start), before).store.payouts
    requires Allowed(Run(Start(start), before), after)
    ensures var w := Run(Start(start), before); var w' := Run(w, after);
      && id in w'.store.payouts && w'.store.payouts[id].facts == w.store.payouts[id].facts
      && KeepsStamps(w.store.payouts[id], w'.store.payouts[id]) && Path(w.store, id) <= Path(w'.store, id)
  {
    StartSafe(start, false);
    RunSafe(Start(start), before, false);
    RunGrows(Run(Start(start), before), after);
    hide Run, Allowed, Tidy, Safe, KeepsStamps;
  }

  lemma RunFacts(start: Time, steps: seq<Step>, id: string) returns (w: World)
    requires Allowed(Start(start), steps)
    requires id in Run(Start(start), steps).store.payouts
    ensures w == Run(Start(start), steps) && Safe(w, false)
    ensures RowSafe(w.store.payouts[id], id, Path(w.store, id), w.now)
    ensures TrailSafe(w.store.payouts[id].facts, w.store.trail[id], w.store.notices[id])
    ensures KeySafeAt(w.store, w.gateway, w.firstSend, w.now, false, id)
  {
    StartSafe(start, false);
    RunSafe(Start(start), steps, false);
    w := Run(Start(start), steps);
    hide Run, Allowed, Tidy, RowSafe, TrailSafe, KeySafeAt;
  }

  // ---- what a history row says was left ----

  /** At most one row is appended, and it gives the copy's status as the one left. */
  predicate WritesFrom(s: Store, s': Store, p: Payout) {
    var id := p.facts.id;
    id in s.trail && id in s'.trail
    && (s'.trail[id] == s.trail[id]
        || (|s'.trail[id]| == |s.trail[id]| + 1 && s'.trail[id][|s.trail[id]|].from == Some(p.status)
            && s'.trail[id][..|s.trail[id]|] == s.trail[id]))
  }

  lemma MovedWritesFrom(s: Store, p: Payout, u: StateUpdate, actor: Actor, reason: Reason, now: Time)
    requires Tidy(s) && p.facts.id in s.payouts
    ensures WritesFrom(s, Moved(s, p, u, actor, reason, now).0, p)
  {
    hide UpdatedRow, Put, Tidy, Announcement;
    var id := p.facts.id;
    AllInTrail(s, id);
    if UpdatedRow(s, id, u, now).Ok? {
      var row := Transition(Some(p.status), u.status, actor, reason, now);
      PutFrame(s, id, UpdatedRow(s, id, u, now).value, s.trail[id] + [row], s.notices[id] + Announcement(u.status));
      var s' := Moved(s, p, u, actor, reason, now).0;
      AllInTrail(s', id);
      assert s'.trail[id] == s.trail[id] + [row];
    }
  }

  lemma AllInTrail(s: Store, id: string)
    requires Tidy(s) && id in s.payouts
    ensures id in s.trail && id in s.notices
  {
  }

  lemma TouchedWritesFrom(s: Store, p: Payout, now: Time)
    requires Tidy(s) && p.facts.id in s.payouts
    ensures WritesFrom(s, s, p) && WritesFrom(s, Touched(s, p.facts.id, now), p)
  {
  }

  lemma ResultWritesFrom(s: Store, p: Payout, result: Iris.PayoutResult, reason: Reason, now: Time)
    requires Tidy(s) && p.facts.id in s.payouts
    ensures WritesFrom(s, ResultApplied(s, p, result, reason, now).0, p)
  {
    hide WritesFrom, Moved, Touched, Tidy;
    TouchedWritesFrom(s, p, now);
    MovedWritesFrom(s, p, ResultUpdate(result), ByGateway, reason, now);
  }

  lemma FailureWritesFrom(s: Store, p: Payout, cause: Iris.CallError, now: Time)
    requires Tidy(s) && p.facts.id in s.payouts
    ensures WritesFrom(s, FailureRecorded(s, p, cause, now).0, p)
  {
    hide WritesFrom, Moved, Tidy;
    MovedWritesFrom(s, p, UnknownUpdate(p), ByGateway, OutcomeWasUnknown, now);
    MovedWritesFrom(s, p, To(Failed).(failure := Some(cause)), ByGateway, RefusedByGateway, now);
  }

  lemma CreateWritesFrom(s: Store, p: Payout, outcome: Outcome, now: Time)
    requires Tidy(s) && p.facts.id in s.payouts
    ensures WritesFrom(s, CreateRecorded(s, p, outcome, now).0, p) && WritesFrom(s, PollRecorded(s, p, outcome, now).0, p)
  {
    hide WritesFrom, Touched, Tidy, ResultApplied, FailureRecorded;
    TouchedWritesFrom(s, p, now);
    match outcome
    case Ok(result) =>
      ResultWritesFrom(s, p, result, if p.status == Unresolved then ResolvedUnderKey else NoReason, now);
      ResultWritesFrom(s, p, result, Reconciled, now);
    case Err(cause) => FailureWritesFrom(s, p, cause, now);
  }

  lemma DecisionWritesFrom(s: Store, p: Payout, admin: string, reason: string, now: Time)
    requires Tidy(s) && p.facts.id in s.payouts
    ensures WritesFrom(s, Approving(s, p, admin, now).0, p) && WritesFrom(s, Rejecting(s, p, admin, reason, now).0, p)
  {
    hide WritesFrom, Moved, Tidy;
    TouchedWritesFrom(s, p, now);
    MovedWritesFrom(s, p, To(Approved).(approvedBy := admin), ByAdmin(admin), NoReason, now);
    MovedWritesFrom(s, p, To(Rejected).(rejectedBy := admin, rejectReason := reason), ByAdmin(admin), Given(reason), now);
  }

  /** The steps that record something a worker found out or an administrator decided. */
  predicate Recording(step: Step) { step.Approve? || step.Reject? || step.RecordCreate? || step.RecordPoll? }

  lemma RecordingWritesFrom(w: World, step: Step, p: Payout)
    requires Tidy(w.store) && Enabled(w, step) && Recording(step) && w.tasks[step.tid].p == p && p.facts.id in w.store.payouts
    ensures WritesFrom(w.store, Next(w, step).store, p)
  {
    hide Tidy, WritesFrom, Approving, Rejecting, CreateRecorded, PollRecorded;
    match step
    case Approve(_, admin) => DecisionWritesFrom(w.store, p, admin, "", w.now);
    case Reject(_, admin, reason) => DecisionWritesFrom(w.store, p, admin, reason, w.now);
    case RecordCreate(tid) => CreateWritesFrom(w.store, p, w.tasks[tid].outcome, w.now);
    case RecordPoll(tid) => CreateWritesFrom(w.store, p, w.tasks[tid].outcome, w.now);
    case _ =>
  }

  /** Whether the last two rows of a history fit together. */
  predicate Joined(rows: seq<Transition>) {
    |rows| >= 2 && rows[|rows| - 1].from == Some(rows[|rows| - 2].to)
  }

  lemma JoinedExactly(s: Store, s': Store, p: Payout)
    requires Tidy(s) && p.facts.id in s.payouts && WritesFrom(s, s', p)
    requires PathFits(History(s.trail[p.facts.id]), s.payouts[p.facts.id].status)
    ensures var id := p.facts.id;
      && id in s'.trail
      && (s'.trail[id] != s.trail[id] ==> (Joined(s'.trail[id]) <==> p.status == s.payouts[id].status))
  {
    hide Tidy, IsPath;
    var rows, rows' := s.trail[p.facts.id], s'.trail[p.facts.id];
    if rows' != rows {
      assert rows'[|rows| - 1] == rows'[..|rows|][|rows| - 1];
    }
  }

  /** A row appended to a history gives as left the status the row before it says was reached if and only
      if the copy it was written from was still up to date, in every reachable state. */
  lemma RecordedFromExactly(start: Time, steps: seq<Step>, step: Step)
    requires Allowed(Start(start), steps) && Recording(step)
    requires Enabled(Run(Start(start), steps), step)
    ensures var w := Run(Start(start), steps); var w' := Next(w, step);
      var p := w.tasks[step.tid].p; var id := p.facts.id;
      && id in w.store.payouts && id in w.store.trail && id in w'.store.trail
      && (w'.store.trail[id] != w.store.trail[id] ==>
            (Joined(w'.store.trail[id]) <==> p.status == w.store.payouts[id].status))
  {
    StartSafe(start, false);
    RunSafe(Start(start), steps, false);
    var w := Run(Start(start), steps);
    RecordedFromHere(w, step);
    hide *;
  }

  lemma TaskOf(w: World, step: Step)
    requires Tidy(w.store) && Enabled(w, step) && Recording(step)
    ensures step.tid in w.tasks && !w.tasks[step.tid].Drafted?
  {
    hide Tidy;
  }

  lemma RecordedFromHere(w: World, step: Step)
    requires Safe(w, false) && Tidy(w.store) && Enabled(w, step) && Recording(step)
    ensures var w' := Next(w, step);
      && step.tid in w.tasks && !w.tasks[step.tid].Drafted?
      && var p := w.tasks[step.tid].p; var id := p.facts.id;
      && id in w.store.payouts && id in w.store.trail && id in w'.store.trail
      && (w'.store.trail[id] != w.store.trail[id] ==>
            (Joined(w'.store.trail[id]) <==> p.status == w.store.payouts[id].status))
  {
    TaskOf(w, step);
    CopyOf(w, step.tid, false);
    var p := w.tasks[step.tid].p;
    CopyIsStored(p, w.store);
    RowPath(w, p.facts.id);
    hide Safe, Tidy, Enabled, Next, Recording, WritesFrom, Joined, PathFits, CopySafe, TaskSafe;
    RecordingWritesFrom(w, step, p);
    JoinedExactly(w.store, Next(w, step).store, p);
  }

  lemma CopyIsStored(p: Payout, s: Store)
    requires Tidy(s) && CopySafe(p, s)
    ensures p.facts.id in s.payouts && p.facts.id in s.trail
  {
  }

  // ---- release ----

  /** Only released payouts are ever sent: a key that was put on the wire belongs to a payout whose
      history shows a move to Approved, made by the request itself or by an administrator other than
      the one who asked.  A rejected payout was never sent. */
  lemma SentMeansReleased(start: Time, steps: seq<Step>, id: string)
    requires Allowed(Start(start), steps)
    requires var w := Run(Start(start), steps); id in w.store.payouts && id in w.firstSend
    ensures var w := Run(Start(start), steps); var rows := w.store.trail[id];
      && w.store.payouts[id].status != Rejected && w.store.payouts[id].status != Requested
      && exists i :: 0 <= i < |rows| && rows[i].to == Approved
           && (rows[i].from.None?
               || (rows[i].actor.ByAdmin? && w.store.payouts[id].facts.requestedBy != Some(rows[i].actor.adminId)))
  {
    var w := RunFacts(start, steps, id);
    var p, rows := w.store.payouts[id], w.store.trail[id];
    ApprovedInPath(w, id);
    hide Run, Allowed, Tidy, Announced, History, PathFits, KeySafe;
    ReleasedRow(p, rows, w.store.notices[id]);
  }

  lemma ApprovedInPath(w: World, id: string)
    requires Safe(w, false) && id in w.store.payouts && id in w.firstSend
    ensures Approved in History(w.store.trail[id])
  {
    assert KeySafeAt(w.store, w.gateway, w.firstSend, w.now, false, id);
    hide Safe, Tidy, History;
  }

  lemma ReleasedRow(p: Payout, rows: seq<Transition>, events: seq<PayoutEvent>)
    requires TrailSafe(p.facts, rows, events) && PathFits(History(rows), p.status) && Approved in History(rows)
    ensures p.status != Rejected && p.status != Requested
    ensures exists i :: (
        0 <= i < |rows| && rows[i].to == Approved
        && (rows[i].from.None?
            || (rows[i].actor.ByAdmin? && p.facts.requestedBy != Some(rows[i].actor.adminId))))
  {
    var path := History(rows);
    ApprovedIsBehind(path);
    var i :| 0 <= i < |path| && path[i] == Approved;
    hide IsPath, Announced;
    assert rows[i].to == Approved;
    if i > 0 {
      assert Honours(rows[i], p.facts);
    }
  }

  /** The part of the wire that carries a key. */
  function WireFor(w: World, key: string): set<int> {
    set tid | tid in w.wire && w.wire[tid].key == key
  }

  /** Past its resend window and past Approved, a payout is never sent again. */
  ghost predicate Shut(w: World, id: string)
    requires Tidy(w.store)
  {
    id in w.store.payouts && w.store.payouts[id].facts.createdAt + IDEMPOTENCY_WINDOW <= w.now
    && Approved in Path(w.store, id) && w.store.payouts[id].status != Approved
  }

  lemma SendsOnlyByCall(w: World, step: Step, id: string)
    requires Tidy(w.store) && Enabled(w, step) && !step.Call?
    ensures WireFor(Next(w, step), id) == WireFor(w, id)
  {
    hide Judge, Requesting, Inserted, NewPayout, Approving, Rejecting, CreateRecorded, PollRecorded, Touched, Tidy;
  }

  lemma SentKey(w: World, tid: int)
    requires Safe(w, false) && HoldingOne(w, tid)
    ensures CopySafe(w.tasks[tid].p, w.store)
    ensures Iris.HeaderKey(w.tasks[tid].p.facts.key) == w.tasks[tid].p.facts.id
  {
    hide Safe, Tidy, Path, TrailSafe, Iris.HeaderKey;
    CopyOf(w, tid, false);
    RowFacts(w, w.tasks[tid].p.facts.id, false);
    HeaderKeyIsWhole(w.tasks[tid].p.facts.key);
  }

  lemma ShutSendsNothing(w: World, tid: int, id: string)
    requires Safe(w, false) && Enabled(w, Call(tid)) && Shut(w, id)
    ensures WireFor(Next(w, Call(tid)), id) == WireFor(w, id)
  {
    SafeIsTidy(w, false);
    CallKey(w, tid);
    hide *;
    if w.tasks[tid].p.facts.id == id {
      ShutSendsNoCopy(w, tid, w.tasks[tid].p);
    } else {
      OtherCallsElsewhere(w, tid, id);
    }
  }

  lemma CallKey(w: World, tid: int)
    requires Safe(w, false) && Enabled(w, Call(tid))
    ensures Tidy(w.store) && tid in w.tasks && w.tasks[tid].Holding?
    ensures CopySafe(w.tasks[tid].p, w.store)
    ensures Iris.HeaderKey(w.tasks[tid].p.facts.key) == w.tasks[tid].p.facts.id
  {
    SafeIsTidy(w, false);
    hide Safe, Tidy, Path, CopySafe, Iris.HeaderKey;
    SentKey(w, tid);
  }

  lemma ShutSendsNoCopy(w: World, tid: int, p: Payout)
    requires Tidy(w.store) && Enabled(w, Call(tid)) && w.tasks[tid].p == p
    requires CopySafe(p, w.store) && Shut(w, p.facts.id)
    ensures WireFor(Next(w, Call(tid)), p.facts.id) == WireFor(w, p.facts.id)
  {
    hide Tidy, Path, Touched;
  }

  lemma OtherCallsElsewhere(w: World, tid: int, id: string)
    requires Tidy(w.store) && Enabled(w, Call(tid)) && CopySafe(w.tasks[tid].p, w.store)
    requires w.tasks[tid].p.facts.id != id && Iris.HeaderKey(w.tasks[tid].p.facts.key) == w.tasks[tid].p.facts.id
    ensures WireFor(Next(w, Call(tid)), id) == WireFor(w, id)
  {
    hide Tidy, Iris.HeaderKey, Iris.Sendable, Touched;
  }

  lemma ShutAfter(s: Store, s': Store, id: string, now: Time, now': Time)
    requires Tidy(s) && Tidy(s') && Grows(s, s') && now <= now'
    requires id in s.payouts && s.payouts[id].facts.createdAt + IDEMPOTENCY_WINDOW <= now
    requires Approved in Path(s, id) && s.payouts[id].status != Approved
    requires PathFits(Path(s, id), s.payouts[id].status)
    requires id in s'.payouts ==> PathFits(Path(s', id), s'.payouts[id].status)
    ensures id in s'.payouts && s'.payouts[id].facts.createdAt + IDEMPOTENCY_WINDOW <= now'
      && Approved in Path(s', id) && s'.payouts[id].status != Approved
  {
    assert History(s.trail[id]) <= History(s'.trail[id]) && s'.payouts[id].facts == s.payouts[id].facts;
    hide Tidy, Grows, IsPath, History;
    StatusAfter(Path(s, id), Path(s', id));
    StillIn(Path(s, id), Path(s', id), Approved);
  }

  lemma RowPath(w: World, id: string)
    requires Safe(w, false)
    ensures Tidy(w.store) && (id in w.store.payouts ==> PathFits(Path(w.store, id), w.store.payouts[id].status))
  {
    hide PathFits, Path;
    if id in w.store.payouts {
      RowFacts(w, id, false);
    }
  }

  lemma ShutStays(w: World, step: Step, id: string)
    requires Safe(w, false) && Enabled(w, step) && Shut(w, id)
    ensures Tidy(w.store) && Shut(Next(w, step), id)
  {
    hide Safe, Next, Enabled, Grows, Tidy, Path, PathFits;
    NextSafe(w, step, false);
    NextGrows(w, step);
    var w' := Next(w, step);
    RowPath(w, id);
    RowPath(w', id);
    ShutAfter(w.store, w'.store, id, w.now, w'.now);
  }

  /** A path that has left Approved does not come back. */
  lemma StatusAfter(path: seq<PayoutStatus>, path': seq<PayoutStatus>)
    requires path <= path' && IsPath(path') && Approved in path && path[|path| - 1] != Approved
    ensures path'[|path'| - 1] != Approved
  {
    var i :| 0 <= i < |path| && path[i] == Approved;
    PathIsShort(path');
    hide IsPath;
    assert path'[i] == Approved && path'[|path| - 1] == path[|path| - 1];
  }

  lemma {:induction false} ShutForGood(w: World, steps: seq<Step>, id: string)
    requires Safe(w, false) && Shut(w, id) && Allowed(w, steps)
    ensures WireFor(Run(w, steps), id) == WireFor(w, id)
    decreases |steps|
  {
    SafeIsTidy(w, false);
    hide Safe, Shut, Enabled, Next, Tidy, WireFor;
    if steps != [] {
      NextSafe(w, steps[0], false);
      ShutStays(w, steps[0], id);
      if steps[0].Call? {
        ShutSendsNothing(w, steps[0].tid, id);
      } else {
        SendsOnlyByCall(w, steps[0], id);
      }
      ShutForGood(Next(w, steps[0]), steps[1..], id);
    }
  }

  /** A stranded payout is never sent again: from any reachable state in which it is stranded, no run
      puts a further request under its key on the wire. */
  lemma StrandedIsNeverSentAgain(start: Time, before: seq<Step>, after: seq<Step>, id: string)
    requires Allowed(Start(start), before)
    requires var w := Run(Start(start), before);
      id in w.store.payouts && Stranded(w.store.payouts[id], w.now) && Allowed(w, after)
    ensures var w := Run(Start(start), before); WireFor(Run(w, after), id) == WireFor(w, id)
  {
    var w := RunFacts(start, before, id);
    StrandedIsShut(w, id);
    hide *;
    ShutForGood(w, after, id);
  }

  lemma StrandedIsShut(w: World, id: string)
    requires Safe(w, false) && id in w.store.payouts && Stranded(w.store.payouts[id], w.now)
    ensures Tidy(w.store) && Shut(w, id)
  {
    SafeIsTidy(w, false);
    RowFacts(w, id, false);
    hide Safe, Tidy, TrailSafe;
    ApprovedIsBehind(Path(w.store, id));
    assert Path(w.store, id)[|Path(w.store, id)| - 1] == Unresolved;
  }
}
