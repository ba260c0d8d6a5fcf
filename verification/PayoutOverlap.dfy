/** How far overlapping admissions can pass the rolling limit. */
module PayoutOverlap {
  import opened Wrappers
  import opened PayoutStatuses
  import opened PayoutStore
  import opened PayoutService
  import opened PayoutEffects
  import opened PayoutProtocol
  import opened PayoutSafety
  import opened PayoutAdmission
  import opened PayoutWitnesses
  import opened Multiples

  // ---- what has been judged and not yet inserted ----

  ghost function Waiting(tasks: map<int, Task>, app: string): set<int> {
    set tid | tid in tasks && tasks[tid].Drafted? && tasks[tid].input.applicationId == app
  }

  ghost predicate AreDrafts(tasks: map<int, Task>, tids: set<int>) {
    forall tid :: tid in tids ==> tid in tasks && tasks[tid].Drafted? && tasks[tid].input.amount > 0
  }

  ghost function PendingSum(tasks: map<int, Task>, tids: set<int>): int
    requires AreDrafts(tasks, tids)
  {
    if exists tid :: tid in tids then
      var tid :| tid in tids;
      tasks[tid].input.amount + PendingSum(tasks, tids - {tid})
    else 0
  }

  lemma {:induction false} PendingTake(tasks: map<int, Task>, tids: set<int>, tid: int)
    requires AreDrafts(tasks, tids) && tid in tids
    ensures PendingSum(tasks, tids) == tasks[tid].input.amount + PendingSum(tasks, tids - {tid})
  {
    var first :| first in tids && PendingSum(tasks, tids) == tasks[first].input.amount + PendingSum(tasks, tids - {first});
    if first != tid {
      PendingTake(tasks, tids - {first}, tid);
      PendingTake(tasks, tids - {tid}, first);
      assert tids - {first} - {tid} == tids - {tid} - {first};
    }
  }

  /** Fewer drafts, the same where they remain, come to no more. */
  lemma {:induction false} PendingShrinks(tasks: map<int, Task>, tids: set<int>, tasks': map<int, Task>, tids': set<int>)
    requires AreDrafts(tasks, tids) && AreDrafts(tasks', tids')
    requires tids' <= tids && forall tid :: tid in tids' ==> tasks'[tid] == tasks[tid]
    ensures PendingSum(tasks', tids') <= PendingSum(tasks, tids)
    decreases tids
  {
    if tid :| tid in tids {
      PendingTake(tasks, tids, tid);
      if tid in tids' {
        PendingTake(tasks', tids', tid);
      }
      assert tids' - {tid} <= tids - {tid};
      PendingShrinks(tasks, tids - {tid}, tasks', tids' - {tid});
      if tid !in tids' {
        assert tids' - {tid} == tids';
      }
    }
  }

  ghost predicate EachWithin(tasks: map<int, Task>, tids: set<int>, limit: nat) {
    AreDrafts(tasks, tids) && forall tid :: tid in tids ==> tasks[tid].input.amount <= limit
  }

  lemma {:induction false} PendingIsBounded(tasks: map<int, Task>, tids: set<int>, limit: nat)
    requires EachWithin(tasks, tids, limit)
    ensures 0 <= PendingSum(tasks, tids) <= Times(|tids|, limit)
  {
    if tid :| tid in tids {
      PendingTake(tasks, tids, tid);
      assert |tids - {tid}| == |tids| - 1;
      PendingIsBounded(tasks, tids - {tid}, limit);
    } else {
      TimesGrows(0, |tids|, limit);
    }
  }

  // ---- the invariant ----

  function Today(s: Store, app: string, now: Time): int
    requires Tidy(s)
  {
    Committed(s.payouts, s.order, app, now - DAY, None)
  }

  /** What is committed in the last day and what is judged and not yet inserted stay within `total`. */
  ghost predicate Budget(w: World, app: string, limit: nat, total: nat)
    requires Tidy(w.store)
  {
    && WithinLimit(w.store, w.now, app, total)
    && DraftsPositive(w.tasks) && EachWithin(w.tasks, Waiting(w.tasks, app), limit)
    && Today(w.store, app, w.now) + PendingSum(w.tasks, Waiting(w.tasks, app)) <= total
  }

  lemma TodayAfterInsert(s: Store, p: Payout, app: string, now: Time)
    requires Tidy(s) && p.facts.id !in s.payouts && p.facts.amount > 0
    ensures Today(Inserted(s, p).0, app, now)
      <= Today(s, app, now) + (if p.facts.applicationId == app then p.facts.amount else 0)
  {
    var s' := Inserted(s, p).0;
    if s' != s {
      InsertedTables(s, p);
      TidyLists(s);
      TidyLists(s');
      hide Tidy, Inserted, Committed;
      CommittedGrows(s.payouts, s.order, p, app, now - DAY, None);
    }
  }

  lemma TodayAfterEffect(s: Store, s': Store, id: string, app: string, now: Time)
    requires Tidy(s) && Effect(s, s', id) && RowsPlausible(s, now)
    ensures Tidy(s') && Today(s', app, now) <= Today(s, app, now)
  {
    EffectOrder(s, s', id);
    TidyLists(s);
    TidyLists(s');
    hide Tidy, Effect, Counts, CanTransitionTo;
    forall k | k in s.order
      ensures s.payouts[k].facts.amount >= 0 && s'.payouts[k].facts == s.payouts[k].facts
      ensures Counts(s'.payouts[k], app, now - DAY, None) ==> Counts(s.payouts[k], app, now - DAY, None)
    {
      EffectRow(s, s', id, k);
      OutOfTheCount(s.payouts[k], s'.payouts[k], app, now - DAY, None);
    }
    CommittedShrinks(s.payouts, s'.payouts, s.order, app, now - DAY, None, now - DAY, None);
  }

  lemma TodayLater(s: Store, app: string, now: Time, later: Time)
    requires Tidy(s) && RowsPlausible(s, now) && now <= later
    ensures Today(s, app, later) <= Today(s, app, now)
  {
    TidyLists(s);
    hide Tidy;
    CommittedShrinks(s.payouts, s.payouts, s.order, app, now - DAY, None, later - DAY, None);
  }

  /** No step but a draft adds to what waits. */
  lemma WaitingShrinks(w: World, step: Step, app: string)
    requires Tidy(w.store) && Enabled(w, step)
    ensures var added := if step.Draft? && step.input.applicationId == app then {step.tid} else {};
      Waiting(Next(w, step).tasks, app) <= Waiting(w.tasks, app) + added
    ensures forall tid :: tid in Waiting(Next(w, step).tasks, app) && tid in Waiting(w.tasks, app) ==> Next(w, step).tasks[tid] == w.tasks[tid]
    ensures step.Draft? ==> step.tid !in Waiting(w.tasks, app)
  {
    hide Tidy, Next, Judge;
    forall tid | tid in Waiting(Next(w, step).tasks, app)
      ensures tid in Waiting(w.tasks, app) || (step.Draft? && step.input.applicationId == app && tid == step.tid)
      ensures tid in Waiting(w.tasks, app) ==> Next(w, step).tasks[tid] == w.tasks[tid]
    {
      DraftsComeFrom(w, step, tid);
    }
  }

  /** Every request of the application is judged under the limit or a lower one, and while fewer than `k`
      others of it are judged and not inserted. */
  ghost predicate Overlapping(w: World, step: Step, app: string, limit: nat, k: nat) {
    (step.Draft? || step.Request?) && step.input.applicationId == app ==>
      && |Waiting(w.tasks, app)| < k
      && (step.limits.Some? ==> step.limits.value.dailyLimit.Some? && step.limits.value.dailyLimit.value <= limit)
  }

  /** What a judged request is worth, and what else may be waiting. */
  lemma JudgedFits(w: World, step: Step, app: string, limit: nat, k: nat)
    requires Tidy(w.store) && Enabled(w, step) && Budget(w, app, limit, Times(k, limit)) && Overlapping(w, step, app, limit, k)
    requires (step.Draft? || step.Request?) && step.input.applicationId == app
    requires Judge(w.store, step.limits, step.input, step.beneficiary, w.now).Admit?
    ensures 0 < step.input.amount
    ensures Today(w.store, app, w.now) + step.input.amount <= limit <= Times(k, limit)
    ensures Today(w.store, app, w.now) + step.input.amount + PendingSum(w.tasks, Waiting(w.tasks, app)) <= Times(k, limit)
  {
    AdmittedWithinLimit(w.store, step.limits, step.input, step.beneficiary, w.now);
    hide Tidy, Enabled, Judge, Waiting, WithinLimit, DraftsPositive, EachWithin, Committed;
    var tids := Waiting(w.tasks, app);
    PendingIsBounded(w.tasks, tids, limit);
    TimesGrows(|tids|, k - 1, limit);
    TimesGrows(1, k, limit);
  }

  lemma TodayIsNotNegative(s: Store, app: string, now: Time)
    requires Tidy(s) && RowsPlausible(s, now)
    ensures Today(s, app, now) >= 0
  {
    TidyLists(s);
    hide Tidy;
    CommittedIsNotNegative(s.payouts, s.order, app, now - DAY, None);
  }

  lemma {:induction false} CommittedIsNotNegative(payouts: map<string, Payout>, order: seq<string>, app: string, lo: Time, hi: Option<Time>)
    requires Listed(payouts, order) && forall id :: id in order ==> payouts[id].facts.amount >= 0
    ensures Committed(payouts, order, app, lo, hi) >= 0
  {
    hide Counts;
    if order != [] {
      assert order[|order| - 1] in order;
      CommittedIsNotNegative(payouts, order[..|order| - 1], app, lo, hi);
    }
  }

  // ---- every step keeps it ----

  lemma WaitingAreDrafts(tasks: map<int, Task>, app: string)
    requires DraftsPositive(tasks)
    ensures AreDrafts(tasks, Waiting(tasks, app))
  {
  }

  /** A step other than a draft of the application: what waits shrinks, and by the draft if one is inserted. */
  lemma PendingNext(w: World, step: Step, app: string, limit: nat)
    requires Tidy(w.store) && Enabled(w, step) && DraftsPositive(w.tasks) && EachWithin(w.tasks, Waiting(w.tasks, app), limit)
    requires !(step.Draft? && step.input.applicationId == app)
    ensures EachWithin(Next(w, step).tasks, Waiting(Next(w, step).tasks, app), limit)
    ensures PendingSum(Next(w, step).tasks, Waiting(Next(w, step).tasks, app)) <= PendingSum(w.tasks, Waiting(w.tasks, app))
  {
    var tasks, tasks' := w.tasks, Next(w, step).tasks;
    WaitingShrinks(w, step, app);
    NextDraftsPositive(w, step);
    WaitingAreDrafts(tasks', app);
    hide Tidy, Enabled, Next, Waiting, DraftsPositive;
    assert Waiting(tasks, app) + {} == Waiting(tasks, app);
    PendingShrinks(tasks, Waiting(tasks, app), tasks', Waiting(tasks', app));
  }

  lemma PendingInserted(w: World, tid: int, id: string, app: string, limit: nat)
    requires Tidy(w.store) && Enabled(w, Insert(tid, id)) && DraftsPositive(w.tasks) && EachWithin(w.tasks, Waiting(w.tasks, app), limit)
    requires w.tasks[tid].input.applicationId == app
    ensures var w' := Next(w, Insert(tid, id));
      && EachWithin(w'.tasks, Waiting(w'.tasks, app), limit)
      && PendingSum(w'.tasks, Waiting(w'.tasks, app)) + w.tasks[tid].input.amount <= PendingSum(w.tasks, Waiting(w.tasks, app))
    ensures w.tasks[tid].input.amount <= PendingSum(w.tasks, Waiting(w.tasks, app))
  {
    var step := Insert(tid, id);
    var tasks, tasks' := w.tasks, Next(w, step).tasks;
    var tids := Waiting(tasks, app);
    InsertTakesDraft(w, tid, id, app);
    PendingNext(w, step, app, limit);
    WaitingShrinks(w, step, app);
    hide Tidy, Enabled, Next, Waiting, DraftsPositive;
    PendingTake(tasks, tids, tid);
    PendingShrinks(tasks, tids - {tid}, tasks', Waiting(tasks', app));
    PendingIsBounded(tasks, tids - {tid}, limit);
  }

  lemma InsertTakesDraft(w: World, tid: int, id: string, app: string)
    requires Tidy(w.store) && Enabled(w, Insert(tid, id)) && w.tasks[tid].input.applicationId == app
    ensures tid in Waiting(w.tasks, app) && tid !in Waiting(Next(w, Insert(tid, id)).tasks, app)
  {
    hide Tidy, Inserted, NewPayout;
  }

  lemma PendingDrafted(w: World, step: Step, app: string, limit: nat)
    requires Tidy(w.store) && Enabled(w, step) && DraftsPositive(w.tasks) && EachWithin(w.tasks, Waiting(w.tasks, app), limit)
    requires step.Draft? && step.input.applicationId == app && 0 < step.input.amount <= limit
    ensures var w' := Next(w, step);
      && EachWithin(w'.tasks, Waiting(w'.tasks, app), limit)
      && PendingSum(w'.tasks, Waiting(w'.tasks, app)) <= PendingSum(w.tasks, Waiting(w.tasks, app)) + step.input.amount
      && w'.store == w.store && w'.now == w.now
  {
    var tasks, tasks', tid := w.tasks, Next(w, step).tasks, step.tid;
    WaitingShrinks(w, step, app);
    NextDraftsPositive(w, step);
    WaitingAreDrafts(tasks', app);
    DraftIsStored(w, step);
    var tids' := Waiting(tasks', app);
    hide Tidy, Enabled, Next, Waiting, DraftsPositive;
    if tid in tids' {
      PendingTake(tasks', tids', tid);
      PendingShrinks(tasks, Waiting(tasks, app), tasks', tids' - {tid});
    } else {
      PendingShrinks(tasks, Waiting(tasks, app), tasks', tids');
    }
  }

  lemma DraftIsStored(w: World, step: Step)
    requires Tidy(w.store) && Enabled(w, step) && step.Draft?
    ensures Judge(w.store, step.limits, step.input, step.beneficiary, w.now).Admit?
    ensures var w' := Next(w, step);
      w'.store == w.store && w'.now == w.now && step.tid in w'.tasks && w'.tasks[step.tid].Drafted? && w'.tasks[step.tid].input == step.input
  {
    hide Tidy, Judge;
  }

  lemma DraftBudget(w: World, step: Step, app: string, limit: nat, k: nat)
    requires Tidy(w.store) && Enabled(w, step) && Budget(w, app, limit, Times(k, limit)) && Overlapping(w, step, app, limit, k)
    requires step.Draft? && step.input.applicationId == app
    ensures Budget(Next(w, step), app, limit, Times(k, limit))
  {
    DraftIsStored(w, step);
    JudgedFits(w, step, app, limit, k);
    TodayIsNotNegative(w.store, app, w.now);
    PendingDrafted(w, step, app, limit);
    NextDraftsPositive(w, step);
    hide Tidy, Enabled, Next, Waiting, DraftsPositive, EachWithin, WithinLimit, Judge, Overlapping, Today, Times;
  }

  /** A payout inserted with room for itself and for what waits. */
  lemma InsertionBudget(w: World, w': World, p: Payout, app: string, limit: nat, total: nat)
    requires Tidy(w.store) && WithinLimit(w.store, w.now, app, total) && p.facts.id !in w.store.payouts
    requires p.facts.createdAt == w.now && p.facts.amount > 0
    requires w'.now == w.now && w'.store == Inserted(w.store, p).0
    requires DraftsPositive(w'.tasks) && EachWithin(w'.tasks, Waiting(w'.tasks, app), limit)
    requires var amount := if p.facts.applicationId == app then p.facts.amount else 0;
      Today(w.store, app, w.now) + amount + PendingSum(w'.tasks, Waiting(w'.tasks, app)) <= total
    ensures Budget(w', app, limit, total)
  {
    hide Tidy, Waiting, DraftsPositive, WithinLimit, Today, Inserted;
    TodayAfterInsert(w.store, p, app, w.now);
    if p.facts.applicationId == app {
      TodayIs(w.store, app, w.now);
      PendingIsBounded(w'.tasks, Waiting(w'.tasks, app), limit);
    }
    InsertKeepsLimit(w.store, p, w.now, app, total);
  }

  lemma RequestBudget(w: World, step: Step, app: string, limit: nat, k: nat)
    requires Safe(w, false) && Tidy(w.store) && Enabled(w, step) && Budget(w, app, limit, Times(k, limit))
    requires Overlapping(w, step, app, limit, k) && step.Request?
    ensures Budget(Next(w, step), app, limit, Times(k, limit))
  {
    RequestLeavesTasks(w, step);
    if Added(w, step).Some? {
      AddedIsNew(w, step);
      RequestedIs(w, step);
      if step.input.applicationId == app {
        JudgedFits(w, step, app, limit, k);
      }
      hide Safe, Tidy, Enabled, Next, Waiting, DraftsPositive, EachWithin, WithinLimit, Judge, Overlapping, Today, Times, Added, Inserted;
      InsertionBudget(w, Next(w, step), Added(w, step).value, app, limit, Times(k, limit));
    } else {
      NothingAdded(w, step);
      hide Tidy, Enabled, Next, Waiting, DraftsPositive, EachWithin, WithinLimit, Today, Times;
    }
  }

  lemma TodayIs(s: Store, app: string, now: Time)
    requires Tidy(s)
    ensures Today(s, app, now) == Committed(s.payouts, s.order, app, now - DAY, None)
  {
  }

  lemma RequestLeavesTasks(w: World, step: Step)
    requires Tidy(w.store) && Enabled(w, step) && step.Request?
    ensures Next(w, step).tasks == w.tasks && Next(w, step).now == w.now
  {
    hide Tidy, Judge, Inserted;
  }

  lemma RequestedIs(w: World, step: Step)
    requires Tidy(w.store) && Enabled(w, step) && step.Request? && Added(w, step).Some?
    ensures Judge(w.store, step.limits, step.input, step.beneficiary, w.now).Admit?
    ensures Added(w, step).value.facts.amount == step.input.amount && Added(w, step).value.facts.applicationId == step.input.applicationId
  {
    hide Tidy, Judge;
  }

  lemma InsertBudget(w: World, tid: int, id: string, app: string, limit: nat, total: nat)
    requires Safe(w, false) && Tidy(w.store) && Enabled(w, Insert(tid, id)) && Budget(w, app, limit, total)
    ensures Budget(Next(w, Insert(tid, id)), app, limit, total)
  {
    var step := Insert(tid, id);
    InsertedIs(w, tid, id);
    hide Safe, Tidy, Enabled, Next, Waiting, DraftsPositive, EachWithin, WithinLimit, Today, Added, Inserted;
    AddedIsNew(w, step);
    NextDraftsPositive(w, step);
    PendingNext(w, step, app, limit);
    if w.tasks[tid].input.applicationId == app {
      PendingInserted(w, tid, id, app, limit);
    }
    InsertionBudget(w, Next(w, step), Added(w, step).value, app, limit, total);
  }

  lemma InsertedIs(w: World, tid: int, id: string)
    requires Tidy(w.store) && Enabled(w, Insert(tid, id))
    ensures tid in w.tasks && w.tasks[tid].Drafted? && Added(w, Insert(tid, id)).Some?
    ensures var p := Added(w, Insert(tid, id)).value;
      p.facts.amount == w.tasks[tid].input.amount && p.facts.applicationId == w.tasks[tid].input.applicationId
  {
    hide Tidy;
  }

  lemma OtherBudget(w: World, step: Step, app: string, limit: nat, total: nat)
    requires Safe(w, false) && Tidy(w.store) && Enabled(w, step) && Budget(w, app, limit, total)
    requires !step.Request? && !step.Insert? && !(step.Draft? && step.input.applicationId == app)
    ensures Budget(Next(w, step), app, limit, total)
  {
    var w' := Next(w, step);
    PendingNext(w, step, app, limit);
    NextDraftsPositive(w, step);
    NextTime(w, step);
    WithinRows(w.store, w.now, app, total);
    hide Safe, Enabled, Next, Tidy, WithinLimit, Effect, Inserted, Waiting, DraftsPositive, EachWithin, Today, RowsPlausible;
    var c := NextStore(w, step);
    match c {
      case Unchanged =>
      case Touches(id) =>
        EffectKeepsLimit(w.store, w'.store, id, w.now, app, total);
        TodayAfterEffect(w.store, w'.store, id, app, w.now);
    }
    LaterLimit(w'.store, w.now, w'.now, app, total);
    WithinRows(w'.store, w.now, app, total);
    TodayLater(w'.store, app, w.now, w'.now);
  }

  lemma WithinRows(s: Store, now: Time, app: string, total: int)
    requires Tidy(s) && WithinLimit(s, now, app, total)
    ensures RowsPlausible(s, now)
  {
    hide Tidy;
  }

  lemma NextBudget(w: World, step: Step, app: string, limit: nat, k: nat)
    requires Safe(w, false) && Tidy(w.store) && Enabled(w, step) && Budget(w, app, limit, Times(k, limit))
    requires Overlapping(w, step, app, limit, k)
    ensures Tidy(Next(w, step).store) && Budget(Next(w, step), app, limit, Times(k, limit))
  {
    hide Safe, Tidy, Enabled, Next, Budget, Overlapping, Times;
    if step.Request? {
      RequestBudget(w, step, app, limit, k);
    } else if step.Insert? {
      InsertBudget(w, step.tid, step.id, app, limit, Times(k, limit));
    } else if step.Draft? && step.input.applicationId == app {
      DraftBudget(w, step, app, limit, k);
    } else {
      OtherBudget(w, step, app, limit, Times(k, limit));
    }
  }

  ghost predicate AllOverlapping(w: World, steps: seq<Step>, app: string, limit: nat, k: nat)
    requires Tidy(w.store) && Allowed(w, steps)
    decreases |steps|
  {
    steps == [] || (Overlapping(w, steps[0], app, limit, k) && AllOverlapping(Next(w, steps[0]), steps[1..], app, limit, k))
  }

  lemma {:induction false} RunBudget(w: World, steps: seq<Step>, app: string, limit: nat, k: nat)
    requires Safe(w, false) && Tidy(w.store) && Allowed(w, steps) && Budget(w, app, limit, Times(k, limit))
    requires AllOverlapping(w, steps, app, limit, k)
    ensures Budget(Run(w, steps), app, limit, Times(k, limit))
    decreases |steps|
  {
    hide Safe, Enabled, Next, Tidy, Budget, Overlapping, Times;
    if steps != [] {
      NextSafe(w, steps[0], false);
      NextBudget(w, steps[0], app, limit, k);
      RunBudget(Next(w, steps[0]), steps[1..], app, limit, k);
    }
  }

  lemma StartBudget(start: Time, app: string, limit: nat, total: nat)
    ensures Tidy(Start(start).store) && Budget(Start(start), app, limit, total)
  {
    StartWithin(start, app, total);
    assert Waiting(Start(start).tasks, app) == {};
  }

  /** When each request of an application overlaps with fewer than `k` others that are judged and not yet
      inserted, its payouts of every day-long window stay within `k` times the limit. */
  lemma OverlapIsBounded(start: Time, steps: seq<Step>, app: string, limit: nat, k: nat, t: Time)
    requires Allowed(Start(start), steps) && AllOverlapping(Start(start), steps, app, limit, k)
    ensures InDay(Run(Start(start), steps).store, app, t) <= k * limit
  {
    StartSafe(start, false);
    StartBudget(start, app, limit, Times(k, limit));
    RunBudget(Start(start), steps, app, limit, k);
    TimesIsProduct(k, limit);
    hide Safe, Run, Allowed, AllOverlapping, InDay, Start, Waiting, PendingSum, Today, Times;
  }

  // ---- the bound is reached ----

  const DESTINATION := Destination("name", "number", "bank", "mail")

  function LimitedTo(limit: nat): Limits { Limits(true, false, None, Some(limit)) }

  function InputFor(app: string, id: string, limit: nat): RequestInput {
    RequestInput(app, "account", id, limit, "IDR", "", "")
  }

  function DraftStep(app: string, ids: seq<string>, i: nat, limit: nat): Step
    requires i < |ids|
  {
    Draft(i, Some(LimitedTo(limit)), InputFor(app, ids[i], limit), Some(Beneficiary(DESTINATION, false)))
  }

  function Drafts(app: string, ids: seq<string>, n: nat, limit: nat): seq<Step>
    requires n <= |ids|
  {
    if n == 0 then [] else Drafts(app, ids, n - 1, limit) + [DraftStep(app, ids, n - 1, limit)]
  }

  /** All requests judged against the empty tables, then all inserted. */
  function AllAtOnce(app: string, ids: seq<string>, n: nat, limit: nat): seq<Step>
    requires n <= |ids|
  {
    if n == 0 then Drafts(app, ids, |ids|, limit) else AllAtOnce(app, ids, n - 1, limit) + [Insert(n - 1, ids[n - 1])]
  }

  ghost predicate Names(ids: seq<string>) {
    (forall i :: 0 <= i < |ids| ==> ids[i] != "" && |ids[i]| <= 100)
    && forall i, j :: 0 <= i < j < |ids| ==> ids[i] != ids[j]
  }

  function DraftTask(app: string, ids: seq<string>, i: nat, limit: nat): Task
    requires i < |ids|
  {
    Drafted(InputFor(app, ids[i], limit), DESTINATION, Approved)
  }

  /** The drafts from `from` up to `to` are waiting. */
  function WaitingFrom(app: string, ids: seq<string>, from: nat, to: nat, limit: nat): map<int, Task>
    requires to <= |ids|
  {
    map i: int | from <= i < to :: DraftTask(app, ids, i, limit)
  }

  function Judged(at: Time, app: string, ids: seq<string>, n: nat, limit: nat): World
    requires n <= |ids|
  {
    Start(at).(tasks := WaitingFrom(app, ids, 0, n, limit))
  }

  lemma OverlapsMore(w0: World, steps: seq<Step>, w: World, step: Step, app: string, limit: nat, k: nat)
    requires Reaches(w0, steps, w) && Tidy(w.store) && Enabled(w, step)
    requires AllOverlapping(w0, steps, app, limit, k) && Overlapping(w, step, app, limit, k)
    ensures Reaches(w0, steps + [step], Next(w, step)) && AllOverlapping(w0, steps + [step], app, limit, k)
  {
    OneStepMore(w0, steps, w, step);
    ReachedIs(w0, steps, w);
    ReachedIs(w0, steps + [step], Next(w, step));
    OverlapJoins(w0, steps, step, app, limit, k);
  }

  lemma {:induction false} OverlapJoins(w: World, steps: seq<Step>, step: Step, app: string, limit: nat, k: nat)
    requires Tidy(w.store) && Allowed(w, steps) && Allowed(w, steps + [step]) && Enabled(Run(w, steps), step)
    requires AllOverlapping(w, steps, app, limit, k) && Overlapping(Run(w, steps), step, app, limit, k)
    ensures AllOverlapping(w, steps + [step], app, limit, k)
    decreases |steps|
  {
    hide Tidy, Enabled, Next, Overlapping;
    if steps == [] {
      assert [] + [step] == [step] && [step][1..] == [];
    } else {
      assert (steps + [step])[0] == steps[0] && (steps + [step])[1..] == steps[1..] + [step];
      OverlapJoins(Next(w, steps[0]), steps[1..], step, app, limit, k);
    }
  }

  lemma {:induction false} AllAreWaiting(app: string, ids: seq<string>, n: nat, limit: nat)
    requires n <= |ids|
    ensures var tasks := WaitingFrom(app, ids, 0, n, limit); Waiting(tasks, app) == tasks.Keys && |tasks| == n
  {
    if n == 0 {
      assert WaitingFrom(app, ids, 0, 0, limit) == map[];
    } else {
      AllAreWaiting(app, ids, n - 1, limit);
      var before := WaitingFrom(app, ids, 0, n - 1, limit);
      assert WaitingFrom(app, ids, 0, n, limit) == before[(n - 1) as int := DraftTask(app, ids, n - 1, limit)];
    }
  }

  lemma DraftIsAllowed(at: Time, app: string, ids: seq<string>, n: nat, limit: nat)
    requires Names(ids) && n < |ids| && limit > 0
    ensures var w, step := Judged(at, app, ids, n, limit), DraftStep(app, ids, n, limit);
      && Tidy(w.store) && Enabled(w, step) && Next(w, step) == Judged(at, app, ids, n + 1, limit)
      && Overlapping(w, step, app, limit, |ids|)
  {
    var w, step := Judged(at, app, ids, n, limit), DraftStep(app, ids, n, limit);
    assert Tidy(w.store);
    assert Judge(EMPTY_STORE, step.limits, step.input, step.beneficiary, at) == Admit(DESTINATION, Approved);
    assert WaitingFrom(app, ids, 0, n, limit)[n as int := DraftTask(app, ids, n, limit)] == WaitingFrom(app, ids, 0, n + 1, limit);
    AllAreWaiting(app, ids, n, limit);
    assert |Waiting(w.tasks, app)| == |w.tasks| == n;
    hide Tidy, Judge, WaitingFrom;
  }

  // ---- and then inserted ----

  function PayoutFor(at: Time, app: string, ids: seq<string>, i: nat, limit: nat): Payout
    requires i < |ids|
  {
    NewPayout(ids[i], InputFor(app, ids[i], limit), DESTINATION, Approved, at)
  }

  ghost predicate HoldsOnly(s: Store, at: Time, app: string, ids: seq<string>, n: nat, limit: nat)
    requires n <= |ids|
  {
    && Tidy(s) && s.order == ids[..n]
    && (forall i :: 0 <= i < n ==> ids[i] in s.payouts && s.payouts[ids[i]] == PayoutFor(at, app, ids, i, limit))
  }

  lemma OneMoreHeld(s: Store, at: Time, app: string, ids: seq<string>, n: nat, limit: nat)
    requires Names(ids) && n < |ids| && HoldsOnly(s, at, app, ids, n, limit)
    ensures ids[n] !in s.payouts && FindReference(s.payouts, s.order, app, ids[n]).None?
    ensures var s' := Inserted(s, PayoutFor(at, app, ids, n, limit)).0;
      HoldsOnly(s', at, app, ids, n + 1, limit)
  {
    var p := PayoutFor(at, app, ids, n, limit);
    PayoutForIs(at, app, ids, n, limit);
    ReferenceIsFree(s, at, app, ids, n, limit);
    NotYetThere(s, ids, n);
    hide Tidy, FindReference, Inserted, PayoutFor, HoldsOnly, Names;
    AdmittedTables(s, p);
    MoreRows(s, Inserted(s, p).0, p, at, app, ids, n, limit);
  }

  lemma MoreRows(s: Store, s': Store, p: Payout, at: Time, app: string, ids: seq<string>, n: nat, limit: nat)
    requires Names(ids) && n < |ids| && HoldsOnly(s, at, app, ids, n, limit) && Tidy(s') && p == PayoutFor(at, app, ids, n, limit)
    requires s'.payouts == s.payouts[ids[n] := p] && s'.order == s.order + [ids[n]]
    ensures HoldsOnly(s', at, app, ids, n + 1, limit)
  {
    hide Tidy, PayoutFor;
    assert ids[..n + 1] == ids[..n] + [ids[n]];
  }

  lemma PayoutForIs(at: Time, app: string, ids: seq<string>, i: nat, limit: nat)
    requires i < |ids|
    ensures var p := PayoutFor(at, app, ids, i, limit);
      p.facts.id == ids[i] && p.facts.applicationId == app && p.facts.reference == ids[i] && p.facts.amount == limit && p.facts.createdAt == at
      && p.status == Approved
  {
  }

  lemma NotYetThere(s: Store, ids: seq<string>, n: nat)
    requires Names(ids) && n < |ids| && Tidy(s) && s.order == ids[..n]
    ensures ids[n] !in s.payouts
  {
    assert ids[n] !in s.order;
  }

  lemma ReferenceIsFree(s: Store, at: Time, app: string, ids: seq<string>, n: nat, limit: nat)
    requires Names(ids) && n < |ids| && HoldsOnly(s, at, app, ids, n, limit)
    ensures FindReference(s.payouts, s.order, app, ids[n]).None?
  {
    forall id | id in s.order ensures s.payouts[id].facts.reference != ids[n] {
      var i :| 0 <= i < n && ids[i] == id;
    }
    hide Tidy;
    NoneFound(s.payouts, s.order, app, ids[n]);
  }

  lemma {:induction false} NoneFound(payouts: map<string, Payout>, order: seq<string>, app: string, reference: string)
    requires (forall id :: id in order ==> id in payouts) && forall id :: id in order ==> payouts[id].facts.reference != reference
    ensures FindReference(payouts, order, app, reference).None?
  {
    if order != [] {
      NoneFound(payouts, order[..|order| - 1], app, reference);
    }
  }

  /** The first `n` are inserted, the others wait. */
  ghost predicate Filling(w: World, at: Time, app: string, ids: seq<string>, n: nat, limit: nat)
    requires n <= |ids|
  {
    HoldsOnly(w.store, at, app, ids, n, limit) && w.now == at && w.tasks == WaitingFrom(app, ids, n, |ids|, limit)
    && Today(w.store, app, at) == Times(n, limit)
  }

  lemma InsertIsAllowed(w: World, at: Time, app: string, ids: seq<string>, n: nat, limit: nat)
    requires Names(ids) && n < |ids| && Filling(w, at, app, ids, n, limit)
    ensures Enabled(w, Insert(n, ids[n])) && Filling(Next(w, Insert(n, ids[n])), at, app, ids, n + 1, limit)
  {
    var p := PayoutFor(at, app, ids, n, limit);
    OneMoreHeld(w.store, at, app, ids, n, limit);
    PayoutForIs(at, app, ids, n, limit);
    InsertMakes(w, at, app, ids, n, limit);
    hide Tidy, FindReference, Inserted, PayoutFor, Today, HoldsOnly, Enabled, Next, WaitingFrom;
    TodayGrows(w.store, p, app, at);
  }

  lemma InsertMakes(w: World, at: Time, app: string, ids: seq<string>, n: nat, limit: nat)
    requires Names(ids) && n < |ids| && Filling(w, at, app, ids, n, limit) && ids[n] !in w.store.payouts
    ensures Enabled(w, Insert(n, ids[n]))
    ensures var w' := Next(w, Insert(n, ids[n])); var p := PayoutFor(at, app, ids, n, limit);
      p.facts.id !in w.store.payouts && w'.store == Inserted(w.store, p).0 && w'.now == at
      && w'.tasks == WaitingFrom(app, ids, n + 1, |ids|, limit)
  {
    FirstLeaves(app, ids, n, limit);
    PayoutForIs(at, app, ids, n, limit);
    HeldIsTidy(w.store, at, app, ids, n, limit);
    assert NewId(w, ids[n]);
    DraftedIs(app, ids, n, limit);
    hide HoldsOnly, Tidy, Inserted, WaitingFrom, Names, PayoutFor;
    assert w.tasks[n as int] == DraftTask(app, ids, n, limit);
    InsertIs(w, at, app, ids, n, limit);
  }

  lemma InsertIs(w: World, at: Time, app: string, ids: seq<string>, n: nat, limit: nat)
    requires Tidy(w.store) && n < |ids| && n as int in w.tasks && w.tasks[n as int] == DraftTask(app, ids, n, limit)
    requires NewId(w, ids[n]) && w.now == at
    ensures Enabled(w, Insert(n, ids[n]))
    ensures var w' := Next(w, Insert(n, ids[n])); var p := PayoutFor(at, app, ids, n, limit);
      p.facts.id !in w.store.payouts && w'.store == Inserted(w.store, p).0 && w'.now == at && w'.tasks == w.tasks - {n as int}
  {
    hide Tidy, Inserted;
  }

  lemma DraftedIs(app: string, ids: seq<string>, n: nat, limit: nat)
    requires n < |ids|
    ensures DraftTask(app, ids, n, limit).Drafted? && n as int in WaitingFrom(app, ids, n, |ids|, limit)
    ensures WaitingFrom(app, ids, n, |ids|, limit)[n as int] == DraftTask(app, ids, n, limit)
  {
  }

  lemma HeldIsTidy(s: Store, at: Time, app: string, ids: seq<string>, n: nat, limit: nat)
    requires n <= |ids| && HoldsOnly(s, at, app, ids, n, limit)
    ensures Tidy(s)
  {
  }

  lemma FirstLeaves(app: string, ids: seq<string>, n: nat, limit: nat)
    requires n < |ids|
    ensures WaitingFrom(app, ids, n, |ids|, limit) - {n as int} == WaitingFrom(app, ids, n + 1, |ids|, limit)
  {
    hide DraftTask;
  }

  lemma TodayGrows(s: Store, p: Payout, app: string, at: Time)
    requires Tidy(s) && p.facts.id !in s.payouts && p.facts.applicationId == app && p.facts.createdAt == at && p.status == Approved
    requires FindReference(s.payouts, s.order, app, p.facts.reference).None?
    ensures Today(Inserted(s, p).0, app, at) == Today(s, app, at) + p.facts.amount
  {
    AdmittedTables(s, p);
    TidyLists(s);
    NotInOrder(s, p.facts.id);
    assert Counts(p, app, at - DAY, None);
    hide Tidy, Inserted, FindReference, Committed, Counts;
    CommittedGrows(s.payouts, s.order, p, app, at - DAY, None);
  }

  lemma InsertDoesNotJudge(w: World, tid: int, id: string, app: string, limit: nat, k: nat)
    ensures Overlapping(w, Insert(tid, id), app, limit, k)
  {
  }

  /** A run from the empty tables that keeps to the overlap. */
  ghost predicate Within(at: Time, steps: seq<Step>, w: World, app: string, limit: nat, k: nat) {
    Reaches(Start(at), steps, w) && AllOverlapping(Start(at), steps, app, limit, k)
  }

  lemma WithinMore(at: Time, steps: seq<Step>, w: World, step: Step, app: string, limit: nat, k: nat)
    requires Within(at, steps, w, app, limit, k) && Tidy(w.store) && Enabled(w, step) && Overlapping(w, step, app, limit, k)
    ensures Within(at, steps + [step], Next(w, step), app, limit, k)
  {
    hide Tidy, Enabled, Next, Reaches, AllOverlapping, Overlapping, Start, Allowed;
    ReachedIs(Start(at), steps, w);
    OverlapsMore(Start(at), steps, w, step, app, limit, k);
    ReachedIs(Start(at), steps + [step], Next(w, step));
  }

  lemma {:induction false} DraftsRun(at: Time, app: string, ids: seq<string>, n: nat, limit: nat)
    requires Names(ids) && n <= |ids| && limit > 0
    ensures Within(at, Drafts(app, ids, n, limit), Judged(at, app, ids, n, limit), app, limit, |ids|)
  {
    if n == 0 {
      assert WaitingFrom(app, ids, 0, 0, limit) == map[];
      FromHere(Start(at));
    } else {
      DraftsRun(at, app, ids, n - 1, limit);
      DraftIsAllowed(at, app, ids, n - 1, limit);
      hide Tidy, Enabled, Next, Judged, Overlapping, Within, DraftStep, Names;
      WithinMore(at, Drafts(app, ids, n - 1, limit), Judged(at, app, ids, n - 1, limit), DraftStep(app, ids, n - 1, limit), app, limit, |ids|);
    }
  }

  lemma {:induction false} InsertsRun(at: Time, app: string, ids: seq<string>, n: nat, limit: nat) returns (w: World)
    requires Names(ids) && n <= |ids| && limit > 0
    ensures Within(at, AllAtOnce(app, ids, n, limit), w, app, limit, |ids|) && Filling(w, at, app, ids, n, limit)
  {
    hide Tidy, Enabled, Next, Judged, Overlapping, Within, Names, Filling, Drafts;
    if n == 0 {
      DraftsRun(at, app, ids, |ids|, limit);
      w := Judged(at, app, ids, |ids|, limit);
      NoneFilled(at, app, ids, limit);
    } else {
      var before := InsertsRun(at, app, ids, n - 1, limit);
      var step := Insert(n - 1, ids[n - 1]);
      InsertIsAllowed(before, at, app, ids, n - 1, limit);
      FillingIsTidy(before, at, app, ids, n - 1, limit);
      InsertDoesNotJudge(before, n - 1, ids[n - 1], app, limit, |ids|);
      w := Next(before, step);
      WithinMore(at, AllAtOnce(app, ids, n - 1, limit), before, step, app, limit, |ids|);
    }
  }

  lemma FillingIsTidy(w: World, at: Time, app: string, ids: seq<string>, n: nat, limit: nat)
    requires n <= |ids| && Filling(w, at, app, ids, n, limit)
    ensures Tidy(w.store)
  {
  }

  lemma NoneFilled(at: Time, app: string, ids: seq<string>, limit: nat)
    ensures Filling(Judged(at, app, ids, |ids|, limit), at, app, ids, 0, limit)
  {
  }

  /** For any number of new payouts there is a run from the empty tables, within the assumptions of
      OverlapIsBounded, that reaches the bound: judged together, then inserted, they come to as many times
      the limit as there are. */
  lemma OverlapReaches(at: Time, app: string, ids: seq<string>, limit: nat)
    requires Names(ids) && limit > 0
    ensures var steps := AllAtOnce(app, ids, |ids|, limit);
      && Allowed(Start(at), steps) && AllOverlapping(Start(at), steps, app, limit, |ids|)
      && InDay(Run(Start(at), steps).store, app, at) == |ids| * limit
  {
    var w := InsertsRun(at, app, ids, |ids|, limit);
    assert Reaches(Start(at), AllAtOnce(app, ids, |ids|, limit), w);
    ReachedIs(Start(at), AllAtOnce(app, ids, |ids|, limit), w);
    FilledDay(w, at, app, ids, limit);
    hide *;
  }

  lemma FilledRows(w: World, at: Time, app: string, ids: seq<string>, limit: nat)
    requires limit > 0 && Filling(w, at, app, ids, |ids|, limit)
    ensures Tidy(w.store) && RowsPlausible(w.store, at)
  {
    var s := w.store;
    forall id | id in s.payouts ensures s.payouts[id].facts.amount > 0 && s.payouts[id].facts.createdAt <= at {
      assert id in s.order;
      var i :| 0 <= i < |ids| && ids[i] == id;
      PayoutForIs(at, app, ids, i, limit);
    }
    hide Tidy;
  }

  lemma FilledDay(w: World, at: Time, app: string, ids: seq<string>, limit: nat)
    requires limit > 0 && Filling(w, at, app, ids, |ids|, limit)
    ensures Tidy(w.store) && InDay(w.store, app, at) == |ids| * limit
  {
    TimesIsProduct(|ids|, limit);
    FilledRows(w, at, app, ids, limit);
    TodayIs(w.store, app, at);
    hide HoldsOnly, Times, Committed, InDay, Tidy, RowsPlausible, WaitingFrom, Today;
    UntilNow(w.store, at, app);
  }
}
