/** What admission guarantees over whole runs: the rolling limit, and one payout per reference. */
module PayoutAdmission {
  import opened Wrappers
  import opened PayoutStatuses
  import opened PayoutStore
  import opened PayoutService
  import opened PayoutEffects
  import opened PayoutProtocol
  import opened PayoutSafety

  const DAY: Time := 24 * HOUR

  // ---- sums ----

  ghost predicate Listed(payouts: map<string, Payout>, order: seq<string>) {
    forall id :: id in order ==> id in payouts
  }

  /** A narrower window over rows of which some no longer count adds up to no more. */
  lemma {:induction false} CommittedShrinks(payouts: map<string, Payout>, payouts': map<string, Payout>, order: seq<string>,
                         app: string, lo: Time, hi: Option<Time>, lo': Time, hi': Option<Time>)
    requires Listed(payouts, order) && Listed(payouts', order)
    requires forall id :: id in order ==>
      payouts[id].facts.amount >= 0 && payouts'[id].facts == payouts[id].facts
      && (Counts(payouts'[id], app, lo', hi') ==> Counts(payouts[id], app, lo, hi))
    ensures Committed(payouts', order, app, lo', hi') <= Committed(payouts, order, app, lo, hi)
  {
    hide Counts;
    if order != [] {
      CommittedShrinks(payouts, payouts', order[..|order| - 1], app, lo, hi, lo', hi');
      assert order[|order| - 1] in order;
    }
  }

  lemma {:induction false} CommittedFrame(payouts: map<string, Payout>, order: seq<string>, p: Payout, app: string, lo: Time, hi: Option<Time>)
    requires Listed(payouts, order) && p.facts.id !in order
    ensures Committed(payouts[p.facts.id := p], order, app, lo, hi) == Committed(payouts, order, app, lo, hi)
  {
    hide Counts;
    if order != [] {
      assert order[|order| - 1] in order;
      CommittedFrame(payouts, order[..|order| - 1], p, app, lo, hi);
    }
  }

  lemma CommittedGrows(payouts: map<string, Payout>, order: seq<string>, p: Payout, app: string, lo: Time, hi: Option<Time>)
    requires Listed(payouts, order) && p.facts.id !in order
    ensures Committed(payouts[p.facts.id := p], order + [p.facts.id], app, lo, hi)
      == Committed(payouts, order, app, lo, hi) + (if Counts(p, app, lo, hi) then p.facts.amount else 0)
  {
    hide Counts;
    assert (order + [p.facts.id])[..|order|] == order;
    CommittedFrame(payouts, order, p, app, lo, hi);
  }

  // ---- the rolling limit ----

  function InDay(s: Store, app: string, t: Time): int
    requires Tidy(s)
  {
    Committed(s.payouts, s.order, app, t - DAY, Some(t))
  }

  ghost predicate RowsPlausible(s: Store, now: Time) {
    forall id :: id in s.payouts ==> s.payouts[id].facts.amount > 0 && s.payouts[id].facts.createdAt <= now
  }

  ghost predicate DaysWithin(s: Store, app: string, limit: int)
    requires Tidy(s)
  {
    forall t :: InDay(s, app, t) <= limit
  }

  ghost predicate WithinLimit(s: Store, now: Time, app: string, limit: int)
    requires Tidy(s)
  {
    RowsPlausible(s, now) && DaysWithin(s, app, limit)
  }

  lemma OutOfTheCount(p: Payout, q: Payout, app: string, lo: Time, hi: Option<Time>)
    requires q.facts == p.facts && (q.status == p.status || CanTransitionTo(p.status, q.status))
    ensures Counts(q, app, lo, hi) ==> Counts(p, app, lo, hi)
  {
  }

  lemma EffectRow(s: Store, s': Store, id: string, k: string)
    requires Tidy(s) && Effect(s, s', id) && k in s.payouts
    ensures k in s'.payouts && s'.payouts[k].facts == s.payouts[k].facts
    ensures s'.payouts[k].status == s.payouts[k].status || CanTransitionTo(s.payouts[k].status, s'.payouts[k].status)
  {
    hide CanTransitionTo, AppendsMove, RowAllowed;
  }

  lemma EffectOrder(s: Store, s': Store, id: string)
    requires Tidy(s) && Effect(s, s', id)
    ensures Tidy(s') && s'.order == s.order && s'.payouts.Keys == s.payouts.Keys
  {
  }

  lemma TidyLists(s: Store)
    requires Tidy(s)
    ensures Listed(s.payouts, s.order) && forall id :: id in s.order <==> id in s.payouts
  {
  }

  lemma EffectShrinks(s: Store, s': Store, id: string, app: string, t: Time)
    requires Tidy(s) && Tidy(s') && Effect(s, s', id)
    requires forall k :: k in s.payouts ==> s.payouts[k].facts.amount > 0
    ensures InDay(s', app, t) <= InDay(s, app, t)
  {
    EffectOrder(s, s', id);
    TidyLists(s);
    TidyLists(s');
    forall k | k in s.order
      ensures s.payouts[k].facts.amount >= 0 && s'.payouts[k].facts == s.payouts[k].facts
      ensures Counts(s'.payouts[k], app, t - DAY, Some(t)) ==> Counts(s.payouts[k], app, t - DAY, Some(t))
    {
      EffectRow(s, s', id, k);
      hide Effect, Tidy, Counts, CanTransitionTo;
      OutOfTheCount(s.payouts[k], s'.payouts[k], app, t - DAY, Some(t));
    }
    hide Effect, Tidy, Counts;
    CommittedShrinks(s.payouts, s'.payouts, s.order, app, t - DAY, Some(t), t - DAY, Some(t));
  }

  lemma EffectKeepsRows(s: Store, s': Store, id: string, now: Time)
    requires Tidy(s) && Effect(s, s', id) && RowsPlausible(s, now)
    ensures RowsPlausible(s', now)
  {
    hide Tidy, Effect;
    EffectOrder(s, s', id);
    forall k | k in s'.payouts ensures s'.payouts[k].facts.amount > 0 && s'.payouts[k].facts.createdAt <= now {
      EffectRow(s, s', id, k);
    }
  }

  lemma EffectKeepsLimit(s: Store, s': Store, id: string, now: Time, app: string, limit: int)
    requires Tidy(s) && Effect(s, s', id) && WithinLimit(s, now, app, limit)
    ensures Tidy(s') && WithinLimit(s', now, app, limit)
  {
    hide Tidy, Effect, InDay;
    EffectOrder(s, s', id);
    EffectKeepsRows(s, s', id, now);
    forall t ensures InDay(s', app, t) <= limit {
      EffectShrinks(s, s', id, app, t);
    }
  }

  /** The crux: every day-long window that contains the new payout lies, as far as anything was created
      yet, within the window that was checked. */
  lemma NewPayoutFits(s: Store, p: Payout, now: Time, app: string, limit: int, t: Time)
    requires Tidy(s) && WithinLimit(s, now, app, limit) && p.facts.id !in s.payouts
    requires p.facts.createdAt == now && p.facts.amount > 0
    requires p.facts.applicationId == app ==>
      Committed(s.payouts, s.order, app, now - DAY, None) + p.facts.amount <= limit
    ensures Committed(s.payouts[p.facts.id := p], s.order + [p.facts.id], app, t - DAY, Some(t)) <= limit
  {
    TidyLists(s);
    hide Tidy;
    CommittedGrows(s.payouts, s.order, p, app, t - DAY, Some(t));
    assert InDay(s, app, t) <= limit;
    if Counts(p, app, t - DAY, Some(t)) {
      CommittedShrinks(s.payouts, s.payouts, s.order, app, now - DAY, None, t - DAY, Some(t));
    }
  }

  lemma InsertKeepsLimit(s: Store, p: Payout, now: Time, app: string, limit: int)
    requires Tidy(s) && WithinLimit(s, now, app, limit) && p.facts.id !in s.payouts
    requires p.facts.createdAt == now && p.facts.amount > 0
    requires p.facts.applicationId == app ==>
      Committed(s.payouts, s.order, app, now - DAY, None) + p.facts.amount <= limit
    ensures WithinLimit(Inserted(s, p).0, now, app, limit)
  {
    hide Tidy, Inserted, InDay;
    var s' := Inserted(s, p).0;
    if s' != s {
      InsertedTables(s, p);
      forall t ensures InDay(s', app, t) <= limit {
        DayOfInserted(s, p, s', app, t);
        hide RowsPlausible, DaysWithin;
        NewPayoutFits(s, p, now, app, limit, t);
      }
    }
  }

  lemma DayOfInserted(s: Store, p: Payout, s': Store, app: string, t: Time)
    requires Tidy(s) && Tidy(s') && s'.payouts == s.payouts[p.facts.id := p] && s'.order == s.order + [p.facts.id]
    ensures Listed(s'.payouts, s'.order)
    ensures InDay(s', app, t) == Committed(s.payouts[p.facts.id := p], s.order + [p.facts.id], app, t - DAY, Some(t))
  {
    TidyLists(s');
    hide Committed;
  }

  lemma InsertedTables(s: Store, p: Payout)
    requires Tidy(s) && p.facts.id !in s.payouts && Inserted(s, p).0 != s
    ensures var s' := Inserted(s, p).0; s'.payouts == s.payouts[p.facts.id := p] && s'.order == s.order + [p.facts.id]
  {
  }

  lemma AdmittedWithinLimit(s: Store, limits: Option<Limits>, input: RequestInput, beneficiary: Option<Beneficiary>, now: Time)
    requires Tidy(s) && Judge(s, limits, input, beneficiary, now).Admit?
    ensures input.amount > 0 && limits.Some?
    ensures limits.value.dailyLimit.Some? ==>
      Committed(s.payouts, s.order, input.applicationId, now - DAY, None) + input.amount <= limits.value.dailyLimit.value
  {
    hide Committed, FindReference;
  }

  /** A request is admitted exactly when it asks for a positive amount under a reference of its own, is
      allowed to, stays within both limits, and names a usable destination; it then waits for approval
      exactly if the application needs it. */
  lemma AdmissionIsExact(s: Store, limits: Option<Limits>, input: RequestInput, beneficiary: Option<Beneficiary>, now: Time)
    requires Tidy(s)
    ensures var v := Judge(s, limits, input, beneficiary, now);
      v.Admit? <==>
        (&& input.amount > 0 && input.reference != ""
         && limits.Some? && limits.value.enabled
         && (limits.value.maxAmount.Some? ==> input.amount <= limits.value.maxAmount.value)
         && (limits.value.dailyLimit.Some? ==>
               Committed(s.payouts, s.order, input.applicationId, now - DAY, None) + input.amount <= limits.value.dailyLimit.value)
         && (forall id :: id in s.payouts ==>
               s.payouts[id].facts.applicationId != input.applicationId || s.payouts[id].facts.reference != input.reference)
         && beneficiary.Some? && !beneficiary.value.disabled)
    ensures var v := Judge(s, limits, input, beneficiary, now);
      && (v.Admit? ==> v.destination == beneficiary.value.destination && (v.status == Requested <==> limits.value.requiresApproval))
      && (v.Original? ==> v.payout.facts.applicationId == input.applicationId && v.payout.facts.reference == input.reference)
  {
    TidyLists(s);
    hide Tidy, Committed, FindReference;
    var found := FindReference(s.payouts, s.order, input.applicationId, input.reference);
    assert found.Some? ==> exists id :: id in s.order && s.payouts[id] == found.value;
  }

  // ---- exactly when a step keeps the limit ----

  /** What is committed at the moment of inserting, not of judging, leaves room for the amount. */
  predicate Room(s: Store, app: string, amount: int, now: Time, limit: int)
    requires Tidy(s)
  {
    Committed(s.payouts, s.order, app, now - DAY, None) + amount <= limit
  }

  predicate Unused(s: Store, p: Payout)
    requires Tidy(s)
  {
    FindReference(s.payouts, s.order, p.facts.applicationId, p.facts.reference).None?
  }

  /** Everything created so far was created within the day that ends now, as far as it matters. */
  lemma UntilNow(s: Store, now: Time, app: string)
    requires Tidy(s) && RowsPlausible(s, now)
    ensures InDay(s, app, now) == Committed(s.payouts, s.order, app, now - DAY, None)
  {
    TidyLists(s);
    hide Tidy;
    CommittedShrinks(s.payouts, s.payouts, s.order, app, now - DAY, None, now - DAY, Some(now));
    CommittedShrinks(s.payouts, s.payouts, s.order, app, now - DAY, Some(now), now - DAY, None);
  }

  lemma InsertLimitExactly(s: Store, p: Payout, now: Time, app: string, limit: int)
    requires Tidy(s) && WithinLimit(s, now, app, limit) && p.facts.id !in s.payouts
    requires p.facts.createdAt == now && p.facts.amount > 0 && (p.status == Requested || p.status == Approved)
    ensures WithinLimit(Inserted(s, p).0, now, app, limit)
      <==> (p.facts.applicationId != app || !Unused(s, p) || Room(s, app, p.facts.amount, now, limit))
  {
    hide Tidy, Inserted, InDay, Committed, FindReference;
    UsedIsNotInserted(s, p);
    if p.facts.applicationId != app || Room(s, app, p.facts.amount, now, limit) {
      InsertKeepsLimit(s, p, now, app, limit);
    } else if Unused(s, p) {
      NoRoomOverfills(s, p, now, app, limit);
    }
  }

  lemma UsedIsNotInserted(s: Store, p: Payout)
    requires Tidy(s) && p.facts.id !in s.payouts
    ensures !Unused(s, p) ==> Inserted(s, p).0 == s
  {
    hide Tidy, FindReference;
  }

  lemma NoRoomOverfills(s: Store, p: Payout, now: Time, app: string, limit: int)
    requires Tidy(s) && WithinLimit(s, now, app, limit) && p.facts.id !in s.payouts && Unused(s, p)
    requires p.facts.createdAt == now && (p.status == Requested || p.status == Approved) && p.facts.applicationId == app
    requires !Room(s, app, p.facts.amount, now, limit)
    ensures !WithinLimit(Inserted(s, p).0, now, app, limit)
  {
    AdmittedTables(s, p);
    hide Tidy, Inserted, FindReference, InDay, Committed, Room, DaysWithin, RowsPlausible;
    DayIsOverfull(s, p, Inserted(s, p).0, now, app, limit);
    hide WithinLimit;
    TooMuch(Inserted(s, p).0, app, now, limit, now);
  }

  lemma DayIsOverfull(s: Store, p: Payout, s': Store, now: Time, app: string, limit: int)
    requires Tidy(s) && Tidy(s') && RowsPlausible(s, now) && p.facts.id !in s.payouts
    requires s'.payouts == s.payouts[p.facts.id := p] && s'.order == s.order + [p.facts.id]
    requires p.facts.createdAt == now && (p.status == Requested || p.status == Approved) && p.facts.applicationId == app
    requires !Room(s, app, p.facts.amount, now, limit)
    ensures InDay(s', app, now) > limit
  {
    hide *;
    DayOfInserted(s, p, s', app, now);
    UntilNow(s, now, app);
    InDayIs(s, app, now);
    NewPayoutInDay(p, app, now);
    NotInOrder(s, p.facts.id);
    CommittedGrows(s.payouts, s.order, p, app, now - DAY, Some(now));
    NoRoom(s, app, p.facts.amount, now, limit);
  }

  lemma NotInOrder(s: Store, id: string)
    requires Tidy(s) && id !in s.payouts
    ensures id !in s.order
  {
  }

  lemma NoRoom(s: Store, app: string, amount: int, now: Time, limit: int)
    requires Tidy(s) && !Room(s, app, amount, now, limit)
    ensures Listed(s.payouts, s.order) && Committed(s.payouts, s.order, app, now - DAY, None) + amount > limit
  {
    TidyLists(s);
  }

  lemma NewPayoutInDay(p: Payout, app: string, now: Time)
    requires p.facts.applicationId == app && p.facts.createdAt == now && (p.status == Requested || p.status == Approved)
    ensures Counts(p, app, now - DAY, Some(now))
  {
  }

  lemma InDayIs(s: Store, app: string, t: Time)
    requires Tidy(s)
    ensures Listed(s.payouts, s.order) && InDay(s, app, t) == Committed(s.payouts, s.order, app, t - DAY, Some(t))
  {
    TidyLists(s);
  }

  lemma TooMuch(s: Store, app: string, t: Time, limit: int, now: Time)
    requires Tidy(s) && InDay(s, app, t) > limit
    ensures !WithinLimit(s, now, app, limit)
  {
    hide Tidy, InDay, RowsPlausible;
  }

  ghost predicate DraftsPositive(tasks: map<int, Task>) {
    forall tid :: tid in tasks && tasks[tid].Drafted? ==> tasks[tid].input.amount > 0
  }

  /** The payout a step would insert. */
  function Added(w: World, step: Step): Option<Payout>
    requires Tidy(w.store) && Enabled(w, step)
  {
    match step
    case Request(limits, input, beneficiary, id) =>
      var v := Judge(w.store, limits, input, beneficiary, w.now);
      if v.Admit? then Some(NewPayout(id, input, v.destination, v.status, w.now)) else None
    case Insert(tid, id) =>
      var t := w.tasks[tid];
      Some(NewPayout(id, t.input, t.destination, t.status, w.now))
    case _ => None
  }

  /** The step inserts a payout of the application for which the day has no room. */
  predicate Overfills(w: World, step: Step, app: string, limit: int)
    requires Tidy(w.store) && Enabled(w, step)
  {
    Added(w, step).Some? &&
    var p := Added(w, step).value;
    p.facts.applicationId == app && Unused(w.store, p) && !Room(w.store, app, p.facts.amount, w.now, limit)
  }

  lemma AddedIsNew(w: World, step: Step)
    requires Safe(w, false) && Tidy(w.store) && Enabled(w, step) && DraftsPositive(w.tasks) && Added(w, step).Some?
    ensures var p := Added(w, step).value;
      && p.facts.id !in w.store.payouts && p.facts.createdAt == w.now && p.facts.amount > 0
      && (p.status == Requested || p.status == Approved)
      && Next(w, step).store == Inserted(w.store, p).0 && Next(w, step).now == w.now
  {
    if step.Request? {
      var v := Judge(w.store, step.limits, step.input, step.beneficiary, w.now);
      AdmittedWithinLimit(w.store, step.limits, step.input, step.beneficiary, w.now);
      JudgedStatus(w.store, step.limits, step.input, step.beneficiary, w.now);
      hide Safe, Tidy, Judge, Inserted;
    } else {
      assert TaskSafe(w.tasks[step.tid], w.store);
      hide Safe, Tidy, Inserted;
    }
  }

  lemma NothingAdded(w: World, step: Step)
    requires Tidy(w.store) && Enabled(w, step) && Added(w, step).None?
    ensures !step.Insert? && (step.Request? ==> Next(w, step).store == w.store)
  {
    hide Tidy, Judge, Inserted;
  }

  /** A step keeps the limit if and only if it does not insert where the day has no room. */
  lemma NextLimitExactly(w: World, step: Step, app: string, limit: int)
    requires Safe(w, false) && Tidy(w.store) && Enabled(w, step) && WithinLimit(w.store, w.now, app, limit) && DraftsPositive(w.tasks)
    ensures Tidy(Next(w, step).store)
    ensures WithinLimit(Next(w, step).store, Next(w, step).now, app, limit) <==> !Overfills(w, step, app, limit)
  {
    hide Safe, Enabled, Next, Tidy, WithinLimit, Effect, Inserted, Added, Room, Unused, DraftsPositive;
    NextTime(w, step);
    var w' := Next(w, step);
    if Added(w, step).Some? {
      AddedIsNew(w, step);
      InsertLimitExactly(w.store, Added(w, step).value, w.now, app, limit);
    } else {
      NothingAdded(w, step);
      if !step.Request? {
        var c := NextStore(w, step);
        match c
        case Unchanged =>
        case Touches(id) => EffectKeepsLimit(w.store, w'.store, id, w.now, app, limit);
      }
      LaterLimit(w'.store, w.now, w'.now, app, limit);
    }
  }

  lemma LaterLimit(s: Store, now: Time, later: Time, app: string, limit: int)
    requires Tidy(s) && WithinLimit(s, now, app, limit) && now <= later
    ensures WithinLimit(s, later, app, limit)
  {
    hide Tidy;
  }

  /** Where a draft comes from. */
  lemma DraftsComeFrom(w: World, step: Step, tid: int)
    requires Tidy(w.store) && Enabled(w, step) && tid in Next(w, step).tasks && Next(w, step).tasks[tid].Drafted?
    ensures (tid in w.tasks && w.tasks[tid] == Next(w, step).tasks[tid] && !(step.Draft? && step.tid == tid))
      || (step.Draft? && step.tid == tid && tid !in w.tasks
          && Judge(w.store, step.limits, step.input, step.beneficiary, w.now).Admit? && Next(w, step).tasks[tid].input == step.input)
  {
    hide Tidy, Judge, Requesting, Inserted, NewPayout, Approving, Rejecting, CreateRecorded, PollRecorded, Touched, Arrive,
         Iris.CreateOutcome, Iris.GetPayout, Iris.HeaderKey, Iris.Sendable;
  }

  lemma NextDraftsPositive(w: World, step: Step)
    requires Tidy(w.store) && Enabled(w, step) && DraftsPositive(w.tasks)
    ensures DraftsPositive(Next(w, step).tasks)
  {
    hide Tidy, Enabled, Next, Judge;
    forall tid | tid in Next(w, step).tasks && Next(w, step).tasks[tid].Drafted?
      ensures Next(w, step).tasks[tid].input.amount > 0
    {
      DraftsComeFrom(w, step, tid);
      if step.Draft? && step.tid == tid {
        AdmittedWithinLimit(w.store, step.limits, step.input, step.beneficiary, w.now);
      }
    }
  }

  ghost predicate AlwaysWithin(w: World, steps: seq<Step>, app: string, limit: int)
    requires Tidy(w.store) && Allowed(w, steps)
    decreases |steps|
  {
    WithinLimit(w.store, w.now, app, limit) && (steps == [] || AlwaysWithin(Next(w, steps[0]), steps[1..], app, limit))
  }

  ghost predicate NeverOverfills(w: World, steps: seq<Step>, app: string, limit: int)
    requires Tidy(w.store) && Allowed(w, steps)
    decreases |steps|
  {
    steps == [] || (!Overfills(w, steps[0], app, limit) && NeverOverfills(Next(w, steps[0]), steps[1..], app, limit))
  }

  lemma {:induction false} RunLimitExactly(w: World, steps: seq<Step>, app: string, limit: int)
    requires Safe(w, false) && Tidy(w.store) && Allowed(w, steps) && WithinLimit(w.store, w.now, app, limit) && DraftsPositive(w.tasks)
    ensures AlwaysWithin(w, steps, app, limit) <==> NeverOverfills(w, steps, app, limit)
    ensures NeverOverfills(w, steps, app, limit) ==> WithinLimit(Run(w, steps).store, Run(w, steps).now, app, limit)
    decreases |steps|
  {
    hide Safe, Enabled, Next, Tidy, WithinLimit, Overfills, DraftsPositive;
    if steps != [] {
      NextSafe(w, steps[0], false);
      NextLimitExactly(w, steps[0], app, limit);
      NextDraftsPositive(w, steps[0]);
      if !Overfills(w, steps[0], app, limit) {
        RunLimitExactly(Next(w, steps[0]), steps[1..], app, limit);
      } else {
        NotWithin(Next(w, steps[0]), steps[1..], app, limit);
      }
    }
  }

  lemma NotWithin(w: World, steps: seq<Step>, app: string, limit: int)
    requires Tidy(w.store) && Allowed(w, steps) && !WithinLimit(w.store, w.now, app, limit)
    ensures !AlwaysWithin(w, steps, app, limit)
  {
    hide Tidy, WithinLimit;
  }

  lemma StartWithin(start: Time, app: string, limit: nat)
    ensures Tidy(Start(start).store) && WithinLimit(Start(start).store, Start(start).now, app, limit) && DraftsPositive(Start(start).tasks)
  {
  }

  /** Over a whole run, in every state every day-long window stays within the limit if and only if no
      insert comes when the day has no room for it; other applications may do as they like. */
  lemma RollingLimitExactly(start: Time, steps: seq<Step>, app: string, limit: nat)
    requires Allowed(Start(start), steps)
    ensures AlwaysWithin(Start(start), steps, app, limit) <==> NeverOverfills(Start(start), steps, app, limit)
  {
    StartSafe(start, false);
    StartWithin(start, app, limit);
    hide Safe, Allowed, AlwaysWithin, NeverOverfills, Start, WithinLimit, DraftsPositive;
    RunLimitExactly(Start(start), steps, app, limit);
  }

  /** The application is judged and inserted in one step, under the same limit or a lower one throughout;
      or, if it is split, the day still has room when it is inserted. */
  predicate Bounded(w: World, step: Step, app: string, limit: int)
    requires Tidy(w.store) && Enabled(w, step)
  {
    match step
    case Request(limits, input, _, _) =>
      limits.Some? && input.applicationId == app ==>
        limits.value.dailyLimit.Some? && limits.value.dailyLimit.value <= limit
    case Insert(tid, _) =>
      w.tasks[tid].input.applicationId == app ==> Room(w.store, app, w.tasks[tid].input.amount, w.now, limit)
    case _ => true
  }

  lemma BoundedFits(w: World, step: Step, app: string, limit: int)
    requires Tidy(w.store) && Enabled(w, step) && Bounded(w, step, app, limit)
    ensures !Overfills(w, step, app, limit)
  {
    if step.Request? && Added(w, step).Some? {
      AdmittedWithinLimit(w.store, step.limits, step.input, step.beneficiary, w.now);
    }
    hide Tidy, Judge, Committed, FindReference;
  }

  predicate AllBounded(w: World, steps: seq<Step>, app: string, limit: int)
    requires Tidy(w.store) && Allowed(w, steps)
    decreases |steps|
  {
    steps == [] || (Bounded(w, steps[0], app, limit) && AllBounded(Next(w, steps[0]), steps[1..], app, limit))
  }

  lemma {:induction false} BoundedNeverOverfills(w: World, steps: seq<Step>, app: string, limit: int)
    requires Tidy(w.store) && Allowed(w, steps) && AllBounded(w, steps, app, limit)
    ensures NeverOverfills(w, steps, app, limit)
    decreases |steps|
  {
    hide Tidy, Enabled, Next, Bounded, Overfills;
    if steps != [] {
      BoundedFits(w, steps[0], app, limit);
      BoundedNeverOverfills(Next(w, steps[0]), steps[1..], app, limit);
    }
  }

  /** The rolling limit: with the application's admission as one step under a constant limit, whatever
      else runs in between and however other applications are admitted, its payouts of every day-long
      window that have not failed or been rejected stay within it. */
  lemma RollingLimitHolds(start: Time, steps: seq<Step>, app: string, limit: nat, t: Time)
    requires Allowed(Start(start), steps) && AllBounded(Start(start), steps, app, limit)
    ensures InDay(Run(Start(start), steps).store, app, t) <= limit
  {
    StartSafe(start, false);
    StartWithin(start, app, limit);
    BoundedNeverOverfills(Start(start), steps, app, limit);
    hide Safe, Run, Allowed, Tidy, AllBounded, NeverOverfills, InDay, Start, DraftsPositive;
    RunLimitExactly(Start(start), steps, app, limit);
  }

  lemma SplitAdmissionAdds(s: Store, first: Payout, second: Payout, now: Time, app: string)
    requires Tidy(s) && first.facts.id !in s.payouts && second.facts.id !in s.payouts && first.facts.id != second.facts.id
    requires Counts(first, app, now - DAY, None) && Counts(second, app, now - DAY, None)
    requires first.facts.reference != second.facts.reference
    requires FindReference(s.payouts, s.order, app, first.facts.reference).None?
    requires FindReference(s.payouts, s.order, app, second.facts.reference).None?
    ensures second.facts.id !in Inserted(s, first).0.payouts
    ensures var s' := Inserted(Inserted(s, first).0, second).0;
      Committed(s'.payouts, s'.order, app, now - DAY, None)
      == Committed(s.payouts, s.order, app, now - DAY, None) + first.facts.amount + second.facts.amount
  {
    TidyLists(s);
    AdmittedTables(s, first);
    var s1 := Inserted(s, first).0;
    TidyLists(s1);
    StillUnused(s, first, app, second.facts.reference);
    AdmittedTables(s1, second);
    hide Tidy, Inserted, Committed, Counts;
    CommittedGrows(s.payouts, s.order, first, app, now - DAY, None);
    CommittedGrows(s1.payouts, s1.order, second, app, now - DAY, None);
  }

  lemma JudgedUnused(s: Store, limits: Limits, input: RequestInput, beneficiary: Option<Beneficiary>, now: Time)
    requires Tidy(s) && Judge(s, Some(limits), input, beneficiary, now).Admit?
    ensures FindReference(s.payouts, s.order, input.applicationId, input.reference).None?
    ensures var v := Judge(s, Some(limits), input, beneficiary, now); v.status == Requested || v.status == Approved
  {
    hide Tidy, Committed, FindReference;
  }

  lemma NewPayoutCounts(id: string, input: RequestInput, destination: Destination, status: PayoutStatus, now: Time)
    requires status == Requested || status == Approved
    ensures var p := NewPayout(id, input, destination, status, now);
      Counts(p, input.applicationId, now - DAY, None) && p.facts.id == id && p.facts.amount == input.amount
      && p.facts.applicationId == input.applicationId && p.facts.reference == input.reference
  {
  }

  /** Two requests judged one after the other, then inserted one after the other. */
  function Overlapping(limits: Limits, one: RequestInput, two: RequestInput, b: Beneficiary, id: string, other: string): seq<Step> {
    [Draft(1, Some(limits), one, Some(b)), Draft(2, Some(limits), two, Some(b))] + [Insert(1, id), Insert(2, other)]
  }

  /** The limit depends on judging and inserting in one step: when two requests are judged before
      either is inserted, each is admitted by itself and both count in full, so the day's total is over
      the limit exactly when what was there and the two amounts come to more. */
  lemma OverlapOvershoots(w: World, limits: Limits, one: RequestInput, two: RequestInput, b: Beneficiary, id: string, other: string)
    requires Tidy(w.store) && NewId(w, id) && NewId(w, other) && id != other && Fresh(w, 1) && Fresh(w, 2)
    requires one.applicationId == two.applicationId && one.reference != two.reference
    requires Judge(w.store, Some(limits), one, Some(b), w.now).Admit? && Judge(w.store, Some(limits), two, Some(b), w.now).Admit?
    ensures var steps := Overlapping(limits, one, two, b, id, other); Allowed(w, steps)
    ensures var s := w.store; var s' := Run(w, Overlapping(limits, one, two, b, id, other)).store;
      Committed(s'.payouts, s'.order, one.applicationId, w.now - DAY, None)
      == Committed(s.payouts, s.order, one.applicationId, w.now - DAY, None) + one.amount + two.amount
  {
    hide *;
    var v1, v2 := Judge(w.store, Some(limits), one, Some(b), w.now), Judge(w.store, Some(limits), two, Some(b), w.now);
    var p1 := NewPayout(id, one, v1.destination, v1.status, w.now);
    var p2 := NewPayout(other, two, v2.destination, v2.status, w.now);
    JudgedUnused(w.store, limits, one, Some(b), w.now);
    JudgedUnused(w.store, limits, two, Some(b), w.now);
    NewPayoutCounts(id, one, v1.destination, v1.status, w.now);
    NewPayoutCounts(other, two, v2.destination, v2.status, w.now);
    NewIdIsNew(w, id);
    NewIdIsNew(w, other);
    SplitAdmissionAdds(w.store, p1, p2, w.now, one.applicationId);
    Overlap(w, limits, one, two, b, id, other, p1, p2);
  }

  lemma NewIdIsNew(w: World, id: string)
    requires NewId(w, id)
    ensures id !in w.store.payouts
  {
  }

  lemma Overlap(w: World, limits: Limits, one: RequestInput, two: RequestInput, b: Beneficiary, id: string, other: string,
                p1: Payout, p2: Payout)
    requires Tidy(w.store) && NewId(w, id) && NewId(w, other) && id != other && Fresh(w, 1) && Fresh(w, 2)
    requires var v := Judge(w.store, Some(limits), one, Some(b), w.now);
      v.Admit? && p1 == NewPayout(id, one, v.destination, v.status, w.now)
    requires var v := Judge(w.store, Some(limits), two, Some(b), w.now);
      v.Admit? && p2 == NewPayout(other, two, v.destination, v.status, w.now)
    requires other !in Inserted(w.store, p1).0.payouts
    ensures var steps := Overlapping(limits, one, two, b, id, other);
      Allowed(w, steps) && Run(w, steps).store == Inserted(Inserted(w.store, p1).0, p2).0
  {
    hide Tidy, Inserted, Judge, NewPayout;
    var drafts, inserts := [Draft(1, Some(limits), one, Some(b)), Draft(2, Some(limits), two, Some(b))], [Insert(1, id), Insert(2, other)];
    var w1 := Next(w, drafts[0]);
    var w2 := Next(w1, drafts[1]);
    RunsTwo(w, drafts, w1, w2);
    var w3 := Next(w2, inserts[0]);
    var w4 := Next(w3, inserts[1]);
    RunsTwo(w2, inserts, w3, w4);
    hide Next, Enabled, Allowed, Run;
    RunJoins(w, drafts, inserts);
  }

  lemma RunsTwo(w: World, steps: seq<Step>, w1: World, w2: World)
    requires |steps| == 2 && Tidy(w.store) && Tidy(w1.store)
    requires Enabled(w, steps[0]) && w1 == Next(w, steps[0]) && Enabled(w1, steps[1]) && w2 == Next(w1, steps[1])
    ensures Allowed(w, steps) && Run(w, steps) == w2
  {
    hide Next, Enabled, Tidy;
    var last := steps[1..];
    assert last[0] == steps[1] && last[1..] == [];
    assert Allowed(w1, last) && Run(w1, last) == w2;
  }

  lemma AdmittedTables(s: Store, p: Payout)
    requires Tidy(s) && p.facts.id !in s.payouts
    requires FindReference(s.payouts, s.order, p.facts.applicationId, p.facts.reference).None?
    ensures var s' := Inserted(s, p).0; s'.payouts == s.payouts[p.facts.id := p] && s'.order == s.order + [p.facts.id]
  {
    hide Tidy;
  }

  lemma StillUnused(s: Store, p: Payout, app: string, reference: string)
    requires Tidy(s) && p.facts.id !in s.payouts && p.facts.reference != reference
    requires FindReference(s.payouts, s.order, p.facts.applicationId, p.facts.reference).None?
    requires FindReference(s.payouts, s.order, app, reference).None?
    ensures var s' := Inserted(s, p).0; FindReference(s'.payouts, s'.order, app, reference).None?
  {
    AdmittedTables(s, p);
    TidyLists(s);
    TidyLists(Inserted(s, p).0);
  }

  // ---- one payout per reference ----

  ghost predicate ReferencesUnique(s: Store) {
    forall id, other :: id in s.payouts && other in s.payouts && id != other ==>
      (s.payouts[id].facts.applicationId != s.payouts[other].facts.applicationId
       || s.payouts[id].facts.reference != s.payouts[other].facts.reference)
  }

  lemma ChangeKeepsReferences(s: Store, s': Store, c: Change)
    requires Tidy(s) && Tidy(s') && Changes(s, s', c) && ReferencesUnique(s)
    ensures ReferencesUnique(s')
  {
    match c
    case Unchanged =>
    case Touches(id) =>
      EffectOrder(s, s', id);
      forall k | k in s.payouts ensures s'.payouts[k].facts == s.payouts[k].facts {
        EffectRow(s, s', id, k);
        hide Effect, Tidy;
      }
      hide Effect, Tidy;
    case Inserts(p) => InsertKeepsReferences(s, p);
  }

  lemma InsertKeepsReferences(s: Store, p: Payout)
    requires Tidy(s) && p.facts.id !in s.payouts && ReferencesUnique(s)
    ensures ReferencesUnique(Inserted(s, p).0)
  {
    TidyLists(s);
    var s' := Inserted(s, p).0;
    if s' != s {
      InsertedTables(s, p);
      assert FindReference(s.payouts, s.order, p.facts.applicationId, p.facts.reference).None?;
      hide Inserted, Tidy, FindReference;
    }
  }

  lemma {:induction false} RunKeepsReferences(w: World, steps: seq<Step>)
    requires Safe(w, false) && Allowed(w, steps) && ReferencesUnique(w.store)
    ensures ReferencesUnique(Run(w, steps).store)
    decreases |steps|
  {
    SafeIsTidy(w, false);
    hide Safe, Enabled, Next, Tidy, ReferencesUnique, Changes;
    if steps != [] {
      NextSafe(w, steps[0], false);
      var c := NextStore(w, steps[0]);
      ChangeKeepsReferences(w.store, Next(w, steps[0]).store, c);
      RunKeepsReferences(Next(w, steps[0]), steps[1..]);
    }
  }

  /** An application's reference names at most one payout, even when requests are judged at the same
      time and inserted later. */
  lemma OnePayoutPerReference(start: Time, steps: seq<Step>, id: string, other: string)
    requires Allowed(Start(start), steps)
    requires var s := Run(Start(start), steps).store;
      id in s.payouts && other in s.payouts
      && s.payouts[id].facts.applicationId == s.payouts[other].facts.applicationId
      && s.payouts[id].facts.reference == s.payouts[other].facts.reference
    ensures id == other
  {
    StartSafe(start, false);
    hide Safe, Run, Allowed, Tidy;
    RunKeepsReferences(Start(start), steps);
  }
}
