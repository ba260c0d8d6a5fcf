/** What the tables say about a payout is never contradicted by the gateway. */
module PayoutBelief {
  import opened Wrappers
  import opened PayoutStatuses
  import opened PayoutStore
  import opened PayoutService
  import opened PayoutEffects
  import opened PayoutProtocol
  import opened PayoutSafety
  import Iris
  import GoStrings

  // ---- an honest gateway ----

  /** The answer to a create request fits what the gateway holds for the key: a full refusal only if
      it refused, a payout only if it accepted, under a mapped word and the right reference.  Any
      other answer, and none at all, leaves the outcome unknown and is always allowed. */
  predicate AnswerFits(x: Iris.Exchange, r: KeyRecord) {
    (Iris.Declined(x) ==> !r.accepted)
    && (Iris.Held(x).Some? ==>
          r.accepted && Iris.Held(x).value.reference == r.reference
          && Iris.MapStatus(Iris.Held(x).value.word) == Some(Reported(r.fate)))
  }

  /** Every reference is given to one transfer only. */
  ghost predicate FreshReference(g: Gateway, reference: string) {
    reference != "" && forall k :: k in g.records && g.records[k].accepted ==> g.records[k].reference != reference
  }

  /** A status read describes the transfer that carries the reference. */
  ghost predicate PollFits(x: Iris.Exchange, reference: string, g: Gateway) {
    Iris.Held(x).Some? && Iris.Mapped(Iris.Held(x).value.word) ==>
      exists k :: (k in g.records && g.records[k].accepted && g.records[k].reference == reference
                   && Iris.MapStatus(Iris.Held(x).value.word) == Some(Reported(g.records[k].fate)))
  }

  ghost predicate Honest(w: World, step: Step)
    requires Tidy(w.store) && Enabled(w, step)
  {
    match step
    case Receive(tid, accept, reference, x) =>
      var key := w.wire[tid].key;
      && (accept && !Remembers(w.gateway, key, w.now) ==> FreshReference(w.gateway, reference))
      && AnswerFits(x, Arrive(w.gateway, key, w.now, accept, reference).records[key])
    case Poll(tid, x) =>
      var p := w.tasks[tid].p;
      p.referenceNo.Some? ==> PollFits(x, p.referenceNo.value, w.gateway)
    case _ => true
  }

  ghost predicate AllHonest(w: World, steps: seq<Step>)
    requires Tidy(w.store) && Allowed(w, steps)
    decreases |steps|
  {
    steps == [] || (Honest(w, steps[0]) && AllHonest(Next(w, steps[0]), steps[1..]))
  }

  // ---- the invariant ----

  predicate Accepted(record: Option<KeyRecord>) {
    record.Some? && record.value.accepted
  }

  /** A status, with the reference stored beside it, says nothing untrue of the gateway. */
  predicate Fits(status: PayoutStatus, reference: Option<string>, record: Option<KeyRecord>, currency: string) {
    match status
    case Submitted => Accepted(record) && reference == Some(record.value.reference)
    case Completed => Accepted(record) && record.value.fate == Paid
    case Failed => !Iris.Sendable(currency) || (record.Some? && (record.value.accepted ==> record.value.fate == Bounced))
    case _ => true
  }

  predicate RowFits(p: Payout, g: Gateway) {
    Fits(p.status, p.referenceNo, Lookup(g.records, p.facts.id), p.facts.currency)
  }

  predicate SettledAs(status: PayoutStatus, record: Option<KeyRecord>) {
    (status == Completed ==> Accepted(record) && record.value.fate == Paid)
    && (status == Failed ==> Accepted(record) && record.value.fate == Bounced)
  }

  predicate CreateFits(outcome: Outcome, record: Option<KeyRecord>) {
    match outcome
    case Ok(result) =>
      Accepted(record) && result.reference == record.value.reference && result.reference != ""
      && SettledAs(result.status, record)
    case Err(e) => e != Iris.OutcomeUnknown ==> record.Some? && !record.value.accepted
  }

  predicate ReadFits(outcome: Outcome, record: Option<KeyRecord>) {
    outcome.Ok? ==> SettledAs(outcome.value.status, record)
  }

  predicate TaskFits(t: Task, g: Gateway) {
    match t
    case Drafted(_, _, _) => true
    case Holding(p) => RowFits(p, g)
    case Calling(p) => RowFits(p, g)
    case Answered(p, outcome) =>
      RowFits(p, g) && (!Iris.Sendable(p.facts.currency) || CreateFits(outcome, Lookup(g.records, p.facts.id)))
      && (!Iris.Sendable(p.facts.currency) ==> outcome == Err(Iris.UnusableAmount))
    case Polled(p, outcome) => RowFits(p, g) && ReadFits(outcome, Lookup(g.records, p.facts.id))
  }

  predicate WireFits(m: Message, g: Gateway) {
    m.Landed? ==> CreateFits(Iris.CreateOutcome(m.answer), Lookup(g.records, m.key))
  }

  /** A worker waiting for an answer waits for its own. */
  predicate Linked(t: Task, tid: int, wire: map<int, Message>) {
    t.Calling? ==> tid in wire && wire[tid].key == t.p.facts.id && Iris.Sendable(t.p.facts.currency)
  }

  ghost predicate ReferencesDistinct(g: Gateway) {
    (forall k :: k in g.records && g.records[k].accepted ==> g.records[k].reference != "")
    && (forall k, l :: k in g.records && l in g.records && k != l && g.records[k].accepted && g.records[l].accepted ==>
          g.records[k].reference != g.records[l].reference)
  }

  ghost predicate RowsFit(s: Store, g: Gateway)
    requires Tidy(s)
  {
    forall id :: id in s.payouts ==> RowFits(s.payouts[id], g)
  }

  ghost predicate TasksFit(tasks: map<int, Task>, wire: map<int, Message>, g: Gateway) {
    forall tid :: tid in tasks ==> TaskFits(tasks[tid], g) && Linked(tasks[tid], tid, wire)
  }

  ghost predicate WiresFit(wire: map<int, Message>, g: Gateway) {
    forall tid :: tid in wire ==> WireFits(wire[tid], g)
  }

  ghost predicate Belief(w: World) {
    && Tidy(w.store) && RowsFit(w.store, w.gateway) && TasksFit(w.tasks, w.wire, w.gateway)
    && WiresFit(w.wire, w.gateway) && ReferencesDistinct(w.gateway)
  }

  // ---- what the gateway holds only becomes more definite ----

  predicate Outlives(r: Option<KeyRecord>, r': Option<KeyRecord>) {
    r.Some? ==>
      r'.Some? && r'.value.accepted == r.value.accepted && r'.value.reference == r.value.reference
      && (r'.value.fate == r.value.fate || r.value.fate == InProgress)
  }

  ghost predicate Remembering(g: Gateway, g': Gateway) {
    forall k :: Outlives(Lookup(g.records, k), Lookup(g'.records, k))
  }

  lemma RowOutlives(p: Payout, g: Gateway, g': Gateway)
    requires RowFits(p, g) && Outlives(Lookup(g.records, p.facts.id), Lookup(g'.records, p.facts.id))
    ensures RowFits(p, g')
  {
    hide Iris.Sendable;
  }

  lemma CreateOutlives(outcome: Outcome, r: Option<KeyRecord>, r': Option<KeyRecord>)
    requires CreateFits(outcome, r) && Outlives(r, r')
    ensures CreateFits(outcome, r')
  {
  }

  lemma TaskKeeps(t: Task, g: Gateway, g': Gateway)
    requires TaskFits(t, g) && Remembering(g, g')
    ensures TaskFits(t, g')
  {
    hide Iris.Sendable, CreateFits, RowFits;
    if !t.Drafted? {
      var r, r' := Lookup(g.records, t.p.facts.id), Lookup(g'.records, t.p.facts.id);
      assert Outlives(r, r');
      RowOutlives(t.p, g, g');
      if t.Answered? && CreateFits(t.outcome, r) {
        CreateOutlives(t.outcome, r, r');
      }
    }
  }

  /** A step of the gateway that forgets nothing. */
  lemma BeliefRemembers(w: World, g': Gateway, wire': map<int, Message>)
    requires Belief(w) && Remembering(w.gateway, g') && ReferencesDistinct(g')
    requires wire'.Keys == w.wire.Keys
    requires forall tid :: tid in wire' ==> wire'[tid].key == w.wire[tid].key && (wire'[tid] == w.wire[tid] || WireFits(wire'[tid], g'))
    ensures Belief(w.(gateway := g', wire := wire'))
  {
    hide Tidy, Outlives, RowFits, TaskFits, CreateFits, ReferencesDistinct, Iris.CreateOutcome, Iris.Sendable;
    forall id | id in w.store.payouts ensures RowFits(w.store.payouts[id], g') {
      var p := w.store.payouts[id];
      assert Outlives(Lookup(w.gateway.records, p.facts.id), Lookup(g'.records, p.facts.id));
      RowOutlives(p, w.gateway, g');
    }
    forall tid | tid in w.tasks ensures TaskFits(w.tasks[tid], g') && Linked(w.tasks[tid], tid, wire') {
      TaskKeeps(w.tasks[tid], w.gateway, g');
    }
    forall tid | tid in wire' ensures WireFits(wire'[tid], g') {
      var m := w.wire[tid];
      assert WireFits(m, w.gateway);
      if m.Landed? && wire'[tid] == m {
        assert Outlives(Lookup(w.gateway.records, m.key), Lookup(g'.records, m.key));
        CreateOutlives(Iris.CreateOutcome(m.answer), Lookup(w.gateway.records, m.key), Lookup(g'.records, m.key));
      }
    }
  }

  // ---- gateway steps ----

  /** An honest answer, read by the client, fits the record. */
  lemma ReadAnswerFits(x: Iris.Exchange, r: KeyRecord)
    requires AnswerFits(x, r) && (r.accepted ==> r.reference != "")
    ensures CreateFits(Iris.CreateOutcome(x), Some(r))
  {
    Iris.OutcomeIsDecided(x);
    hide Iris.MapStatus, GoStrings.Contains, GoStrings.ToLower;
    if Iris.CreateOutcome(x).Err? && Iris.CreateOutcome(x).error != Iris.OutcomeUnknown {
      Iris.PlainErrorMeansDeclined(x);
    }
  }

  lemma ArrivalRemembers(g: Gateway, key: string, now: Time, accept: bool, reference: string)
    requires key in g.records ==> Remembers(g, key, now)
    ensures Remembering(g, Arrive(g, key, now, accept, reference))
  {
  }

  lemma ArrivalDistinct(g: Gateway, key: string, now: Time, accept: bool, reference: string)
    requires ReferencesDistinct(g) && (key in g.records ==> Remembers(g, key, now))
    requires accept && !Remembers(g, key, now) ==> FreshReference(g, reference)
    ensures ReferencesDistinct(Arrive(g, key, now, accept, reference))
  {
  }

  lemma ArrivalBelief(w: World, tid: int, key: string, accept: bool, reference: string, x: Iris.Exchange)
    requires Belief(w) && tid in w.wire && w.wire[tid].key == key
    requires key in w.gateway.records ==> Remembers(w.gateway, key, w.now)
    requires accept && !Remembers(w.gateway, key, w.now) ==> FreshReference(w.gateway, reference)
    requires AnswerFits(x, Arrive(w.gateway, key, w.now, accept, reference).records[key])
    ensures Belief(w.(gateway := Arrive(w.gateway, key, w.now, accept, reference), wire := w.wire[tid := Landed(key, x)]))
  {
    hide Tidy, RowsFit, TasksFit, Remembering, WiresFit, WireFits, AnswerFits, Arrive, Remembers, FreshReference, ReferencesDistinct;
    var g' := Arrive(w.gateway, key, w.now, accept, reference);
    ArrivalRemembers(w.gateway, key, w.now, accept, reference);
    ArrivalDistinct(w.gateway, key, w.now, accept, reference);
    LandedFits(key, x, g');
    hide Belief;
    BeliefRemembers(w, g', w.wire[tid := Landed(key, x)]);
  }

  lemma ReceiveBelief(w: World, tid: int, accept: bool, reference: string, x: Iris.Exchange)
    requires Safe(w, true) && Belief(w) && Enabled(w, Receive(tid, accept, reference, x))
    requires Timely(w, Receive(tid, accept, reference, x)) && Honest(w, Receive(tid, accept, reference, x))
    ensures Belief(Next(w, Receive(tid, accept, reference, x)))
  {
    hide Safe, Belief, Tidy, Remembers, FreshReference, AnswerFits, Arrive;
    ReceiveKeepsKeys(w, tid, accept, reference, true);
    ArrivalBelief(w, tid, w.wire[tid].key, accept, reference, x);
  }

  lemma LandedFits(key: string, x: Iris.Exchange, g: Gateway)
    requires key in g.records && AnswerFits(x, g.records[key]) && ReferencesDistinct(g)
    ensures WireFits(Landed(key, x), g)
  {
    hide AnswerFits, CreateFits, Iris.CreateOutcome;
    ReadAnswerFits(x, g.records[key]);
  }

  lemma ProgressBelief(w: World, key: string, fate: Fate)
    requires Belief(w) && Enabled(w, Progress(key, fate))
    ensures Belief(Next(w, Progress(key, fate)))
  {
    var g' := WithFate(w.gateway, key, fate);
    assert Remembering(w.gateway, g') && ReferencesDistinct(g') by { hide Tidy, RowsFit, TasksFit, WiresFit; }
    hide Tidy, RowsFit, TasksFit, WiresFit, Remembering, ReferencesDistinct, Belief;
    BeliefRemembers(w, g', w.wire);
  }

  // ---- workers' steps ----

  lemma BeliefTask(w: World, tid: int, t: Task)
    requires Belief(w) && TaskFits(t, w.gateway) && Linked(t, tid, w.wire)
    ensures Belief(w.(tasks := w.tasks[tid := t]))
  {
    hide Tidy, RowsFit, WiresFit, ReferencesDistinct, TaskFits, Linked;
  }

  lemma BeliefDone(w: World, tid: int, s': Store)
    requires Belief(w) && Tidy(s') && RowsFit(s', w.gateway)
    ensures Belief(Done(w, tid, s'))
  {
    hide Tidy, RowsFit, WiresFit, ReferencesDistinct, TaskFits, Linked;
  }

  lemma RowsFitBut(s: Store, s': Store, id: string, g: Gateway)
    requires Tidy(s) && Effect(s, s', id) && RowsFit(s, g)
    requires id in s.payouts ==> RowFits(s'.payouts[id], g)
    ensures RowsFit(s', g)
  {
    EffectDomain(s, s', id);
    forall k | k in s'.payouts ensures RowFits(s'.payouts[k], g) {
      if k != id {
        EffectLeaves(s, s', id, k);
        hide Effect, RowFits, Tidy;
      }
    }
  }

  /** A row that kept its status and reference, or moved to one that claims nothing. */
  predicate Quiet(p: Payout, q: Payout) {
    q.facts == p.facts
    && ((q.status == p.status && q.referenceNo == p.referenceNo)
        || q.status == Requested || q.status == Approved || q.status == Rejected || q.status == Unresolved)
  }

  predicate QuietAt(s: Store, s': Store, id: string) {
    id in s.payouts && id in s'.payouts && Quiet(s.payouts[id], s'.payouts[id])
  }

  predicate FitsAt(s: Store, id: string, g: Gateway) {
    id in s.payouts && RowFits(s.payouts[id], g)
  }

  lemma QuietFits(s: Store, s': Store, id: string, g: Gateway)
    requires FitsAt(s, id, g) && QuietAt(s, s', id)
    ensures FitsAt(s', id, g)
  {
  }

  lemma MovedQuiet(s: Store, p: Payout, u: StateUpdate, actor: Actor, reason: Reason, now: Time)
    requires Tidy(s) && p.facts.id in s.payouts && (u.status == Approved || u.status == Rejected || u.status == Unresolved)
    ensures QuietAt(s, Moved(s, p, u, actor, reason, now).0, p.facts.id)
  {
    hide ReferenceTaken, RowAllowed, Tidy;
  }

  lemma ApprovingQuiet(s: Store, p: Payout, admin: string, now: Time)
    requires Tidy(s) && p.facts.id in s.payouts
    ensures QuietAt(s, Approving(s, p, admin, now).0, p.facts.id)
  {
    hide Moved, Tidy;
    MovedQuiet(s, p, To(Approved).(approvedBy := admin), ByAdmin(admin), NoReason, now);
  }

  lemma RejectingQuiet(s: Store, p: Payout, admin: string, reason: string, now: Time)
    requires Tidy(s) && p.facts.id in s.payouts
    ensures QuietAt(s, Rejecting(s, p, admin, reason, now).0, p.facts.id)
  {
    hide Moved, Tidy;
    MovedQuiet(s, p, To(Rejected).(rejectedBy := admin, rejectReason := reason), ByAdmin(admin), Given(reason), now);
  }

  lemma TouchedFits(s: Store, id: string, now: Time, g: Gateway)
    requires Tidy(s) && FitsAt(s, id, g)
    ensures FitsAt(Touched(s, id, now), id, g)
  {
    assert QuietAt(s, Touched(s, id, now), id) by { hide Tidy, RowFits; }
    hide Tidy, Touched, FitsAt, QuietAt;
    QuietFits(s, Touched(s, id, now), id, g);
  }

  /** The row an update writes: as before, or moved to the update's status with its reference. */
  predicate Written(s: Store, s': Store, id: string, u: StateUpdate) {
    id in s.payouts && id in s'.payouts && s'.payouts[id].facts == s.payouts[id].facts
    && s'.payouts[id].status == u.status && s'.payouts[id].referenceNo == KeepSome(u.referenceNo, s.payouts[id].referenceNo)
  }

  lemma MovedWrites(s: Store, p: Payout, u: StateUpdate, actor: Actor, reason: Reason, now: Time)
    requires Tidy(s) && p.facts.id in s.payouts
    ensures var s' := Moved(s, p, u, actor, reason, now).0; s' == s || Written(s, s', p.facts.id, u)
  {
    hide ReferenceTaken, RowAllowed, Tidy;
  }

  lemma WrittenFits(s: Store, s': Store, id: string, u: StateUpdate, g: Gateway)
    requires FitsAt(s, id, g) && (s' == s || Written(s, s', id, u))
    requires Fits(u.status, KeepSome(u.referenceNo, s.payouts[id].referenceNo),
                  Lookup(g.records, s.payouts[id].facts.id), s.payouts[id].facts.currency)
    ensures FitsAt(s', id, g)
  {
    hide Iris.Sendable, Fits;
  }

  lemma ResultFits(s: Store, p: Payout, result: Iris.PayoutResult, reason: Reason, now: Time, g: Gateway)
    requires Tidy(s) && FitsAt(s, p.facts.id, g) && s.payouts[p.facts.id].facts == p.facts
    requires SettledAs(result.status, Lookup(g.records, p.facts.id)) && p.status != Requested
    requires CanTransitionTo(p.status, Submitted) ==> CreateFits(Ok(result), Lookup(g.records, p.facts.id))
    ensures FitsAt(ResultApplied(s, p, result, reason, now).0, p.facts.id, g)
  {
    FoundAt(s, p.facts.id, g);
    hide Moved, Tidy, Touched, Iris.Sendable, FitsAt;
    if CanTransitionTo(p.status, result.status) {
      MovedWrites(s, p, ResultUpdate(result), ByGateway, reason, now);
      hide Written, Lookup;
      WrittenFits(s, ResultApplied(s, p, result, reason, now).0, p.facts.id, ResultUpdate(result), g);
    } else {
      TouchedFits(s, p.facts.id, now, g);
    }
  }

  lemma FoundAt(s: Store, id: string, g: Gateway)
    requires FitsAt(s, id, g)
    ensures id in s.payouts
  {
  }

  lemma FailureFits(s: Store, p: Payout, cause: Iris.CallError, now: Time, g: Gateway)
    requires Tidy(s) && FitsAt(s, p.facts.id, g) && s.payouts[p.facts.id].facts == p.facts
    requires cause != Iris.OutcomeUnknown ==> Fits(Failed, None, Lookup(g.records, p.facts.id), p.facts.currency)
    ensures FitsAt(FailureRecorded(s, p, cause, now).0, p.facts.id, g)
  {
    FoundAt(s, p.facts.id, g);
    hide Moved, Tidy, Iris.Sendable, FitsAt, QuietAt, Written;
    if cause == Iris.OutcomeUnknown {
      MovedQuiet(s, p, UnknownUpdate(p), ByGateway, OutcomeWasUnknown, now);
      QuietFits(s, FailureRecorded(s, p, cause, now).0, p.facts.id, g);
    } else {
      var u := To(Failed).(failure := Some(cause));
      MovedWrites(s, p, u, ByGateway, RefusedByGateway, now);
      WrittenFits(s, FailureRecorded(s, p, cause, now).0, p.facts.id, u, g);
    }
  }

  lemma CreateRecordedFits(s: Store, p: Payout, outcome: Outcome, now: Time, g: Gateway)
    requires Tidy(s) && FitsAt(s, p.facts.id, g) && s.payouts[p.facts.id].facts == p.facts
    requires TaskFits(Answered(p, outcome), g) && (p.status == Approved || p.status == Unresolved)
    ensures FitsAt(CreateRecorded(s, p, outcome, now).0, p.facts.id, g)
  {
    hide Tidy, Iris.Sendable, FailureRecorded, ResultApplied, Touched, RowFits, FitsAt, Lookup;
    match outcome
    case Ok(result) =>
      ResultFits(s, p, result, if p.status == Unresolved then ResolvedUnderKey else NoReason, now, g);
    case Err(cause) =>
      if p.status == Unresolved && cause == Iris.OutcomeUnknown {
        TouchedFits(s, p.facts.id, now, g);
      } else {
        FailureFits(s, p, cause, now, g);
      }
  }

  lemma PollRecordedFits(s: Store, p: Payout, outcome: Outcome, now: Time, g: Gateway)
    requires Tidy(s) && FitsAt(s, p.facts.id, g) && s.payouts[p.facts.id].facts == p.facts
    requires p.status == Submitted && TaskFits(Polled(p, outcome), g)
    ensures FitsAt(PollRecorded(s, p, outcome, now).0, p.facts.id, g)
  {
    hide Tidy, Iris.Sendable, ResultApplied, Touched, RowFits, FitsAt, Lookup, SettledAs;
    match outcome
    case Ok(result) => ResultFits(s, p, result, Reconciled, now, g);
    case Err(_) => TouchedFits(s, p.facts.id, now, g);
  }

  // ---- every step keeps the invariant ----

  /** The row of a task's copy, in a state that is safe and believed. */
  lemma CopyFits(w: World, tid: int)
    requires Safe(w, true) && Belief(w) && tid in w.tasks && !w.tasks[tid].Drafted?
    ensures var p := w.tasks[tid].p;
      Tidy(w.store) && FitsAt(w.store, p.facts.id, w.gateway) && Copies(w.store, p)
    ensures TaskFits(w.tasks[tid], w.gateway) && Linked(w.tasks[tid], tid, w.wire)
    ensures w.tasks[tid].Answered? ==>
      (w.tasks[tid].p.status == Approved || w.tasks[tid].p.status == Unresolved) && Plausible(w.tasks[tid].outcome)
    ensures w.tasks[tid].Polled? ==> w.tasks[tid].p.status == Submitted && Plausible(w.tasks[tid].outcome)
  {
    CopyOf(w, tid, true);
    hide Tidy, Safe, RowFits, TaskFits, WiresFit, ReferencesDistinct, Plausible;
  }

  lemma BeliefStore(w: World, tid: int, s': Store, id: string)
    requires Belief(w) && Tidy(w.store) && Effect(w.store, s', id) && FitsAt(s', id, w.gateway)
    ensures Belief(Done(w, tid, s'))
  {
    hide Tidy, Effect, TasksFit, WiresFit, ReferencesDistinct, RowFits, RowsFit;
    EffectDomain(w.store, s', id);
    RowsFitBut(w.store, s', id, w.gateway);
    hide Belief;
    BeliefDone(w, tid, s');
  }

  lemma BeliefQuiet(w: World, tid: int, s': Store, id: string)
    requires Belief(w) && Tidy(w.store) && Effect(w.store, s', id) && FitsAt(w.store, id, w.gateway) && QuietAt(w.store, s', id)
    ensures Belief(Done(w, tid, s'))
  {
    hide *;
    QuietFits(w.store, s', id, w.gateway);
    BeliefStore(w, tid, s', id);
  }

  lemma ApproveBelief(w: World, tid: int, admin: string)
    requires Safe(w, true) && Belief(w) && Enabled(w, Approve(tid, admin))
    ensures Belief(Next(w, Approve(tid, admin)))
  {
    hide Safe, Belief, Tidy, Approving, Copies, FitsAt, Effect, TaskFits, Linked, Plausible;
    CopyFits(w, tid);
    var p := w.tasks[tid].p;
    FoundAt(w.store, p.facts.id, w.gateway);
    ApprovingHasEffect(w.store, p, admin, w.now);
    ApprovingQuiet(w.store, p, admin, w.now);
    hide QuietAt;
    BeliefQuiet(w, tid, Approving(w.store, p, admin, w.now).0, p.facts.id);
  }

  lemma RejectBelief(w: World, tid: int, admin: string, reason: string)
    requires Safe(w, true) && Belief(w) && Enabled(w, Reject(tid, admin, reason))
    ensures Belief(Next(w, Reject(tid, admin, reason)))
  {
    hide Safe, Belief, Tidy, Rejecting, Copies, FitsAt, Effect, TaskFits, Linked, Plausible;
    CopyFits(w, tid);
    var p := w.tasks[tid].p;
    FoundAt(w.store, p.facts.id, w.gateway);
    RejectingHasEffect(w.store, p, admin, reason, w.now);
    RejectingQuiet(w.store, p, admin, reason, w.now);
    hide QuietAt;
    BeliefQuiet(w, tid, Rejecting(w.store, p, admin, reason, w.now).0, p.facts.id);
  }

  lemma RecordCreateBelief(w: World, tid: int)
    requires Safe(w, true) && Belief(w) && Enabled(w, RecordCreate(tid))
    ensures Belief(Next(w, RecordCreate(tid)))
  {
    hide Safe, Belief, Tidy, CreateRecorded, FitsAt, Effect, TaskFits, Linked, Plausible;
    CopyFits(w, tid);
    var p, outcome := w.tasks[tid].p, w.tasks[tid].outcome;
    FoundAt(w.store, p.facts.id, w.gateway);
    CreateRecordedHasEffect(w.store, p, outcome, w.now);
    CreateRecordedFits(w.store, p, outcome, w.now, w.gateway);
    BeliefStore(w, tid, CreateRecorded(w.store, p, outcome, w.now).0, p.facts.id);
  }

  lemma RecordPollBelief(w: World, tid: int)
    requires Safe(w, true) && Belief(w) && Enabled(w, RecordPoll(tid))
    ensures Belief(Next(w, RecordPoll(tid)))
  {
    hide Safe, Belief, Tidy, PollRecorded, FitsAt, Effect, TaskFits, Linked, Plausible;
    CopyFits(w, tid);
    var p, outcome := w.tasks[tid].p, w.tasks[tid].outcome;
    FoundAt(w.store, p.facts.id, w.gateway);
    PollRecordedHasEffect(w.store, p, outcome, w.now);
    PollRecordedFits(w.store, p, outcome, w.now, w.gateway);
    BeliefStore(w, tid, PollRecorded(w.store, p, outcome, w.now).0, p.facts.id);
  }

  lemma TouchBelief(w: World, tid: int, id: string)
    requires Belief(w) && Tidy(w.store) && FitsAt(w.store, id, w.gateway)
    ensures Belief(Done(w, tid, Touched(w.store, id, w.now)))
  {
    hide *;
    TouchedHasEffect(w.store, id, w.now);
    TouchedFits(w.store, id, w.now, w.gateway);
    BeliefStore(w, tid, Touched(w.store, id, w.now), id);
  }

  lemma ReadsRightTransfer(p: Payout, x: Iris.Exchange, g: Gateway)
    requires RowFits(p, g) && p.status == Submitted && p.referenceNo.Some? && PollFits(x, p.referenceNo.value, g)
    requires ReferencesDistinct(g)
    ensures TaskFits(Polled(p, Iris.GetPayout(x)), g)
  {
    hide Iris.MapStatus, Iris.GetPayout, Iris.Held, Iris.Mapped, Iris.Sendable;
    if Iris.GetPayout(x).Ok? {
      PollIsHeld(x);
      var k :| k in g.records && g.records[k].accepted && g.records[k].reference == p.referenceNo.value
        && Iris.MapStatus(Iris.Held(x).value.word) == Some(Reported(g.records[k].fate));
      assert k == p.facts.id;
    }
  }

  lemma PollIsHeld(x: Iris.Exchange)
    requires Iris.GetPayout(x).Ok?
    ensures Iris.Held(x).Some? && Iris.Mapped(Iris.Held(x).value.word)
    ensures Iris.MapStatus(Iris.Held(x).value.word) == Some(Iris.GetPayout(x).value.status)
  {
    BlankIsUnmapped();
    hide Iris.MapStatus, GoStrings.Contains, GoStrings.ToLower;
  }

  lemma BlankIsUnmapped()
    ensures Iris.MapStatus("").None?
  {
  }

  lemma PollBelief(w: World, tid: int, x: Iris.Exchange)
    requires Safe(w, true) && Belief(w) && Enabled(w, Poll(tid, x)) && Honest(w, Poll(tid, x))
    ensures Belief(Next(w, Poll(tid, x)))
  {
    hide Safe, Tidy, Touched, PollFits, Copies, FitsAt, RowsFit, TasksFit, WiresFit, ReferencesDistinct, Iris.GetPayout, RowFits, ReadFits, Plausible;
    CopyFits(w, tid);
    var p := w.tasks[tid].p;
    if p.referenceNo.None? {
      hide Belief;
      TouchBelief(w, tid, p.facts.id);
    } else {
      ReadsRightTransfer(p, x, w.gateway);
      hide TaskFits, Belief;
      BeliefTask(w, tid, Polled(p, Iris.GetPayout(x)));
    }
  }

  lemma SendBelief(w: World, tid: int, p: Payout)
    requires Belief(w) && RowFits(p, w.gateway) && p.facts.key == p.facts.id && |p.facts.key| <= 100 && tid !in w.wire
    ensures Belief(Send(w, tid, p))
  {
    HeaderKeyIsWhole(p.facts.key);
    hide Tidy, Iris.HeaderKey, Iris.Sendable, RowsFit, ReferencesDistinct, RowFits;
    if !Iris.Sendable(p.facts.currency) {
      hide Belief;
      BeliefTask(w, tid, Answered(p, Err(Iris.UnusableAmount)));
    } else {
      hide TaskFits;
      var wire' := w.wire[tid := Underway(p.facts.key, p.status == Unresolved, w.now)];
      assert TaskFits(Calling(p), w.gateway) by { CallingFits(p, w.gateway); }
      assert TasksFit(w.tasks[tid := Calling(p)], wire', w.gateway);
    }
  }

  lemma CallingFits(p: Payout, g: Gateway)
    requires RowFits(p, g)
    ensures TaskFits(Calling(p), g)
  {
  }

  lemma RowAt(w: World, id: string)
    requires Safe(w, true) && Belief(w) && id in w.store.payouts
    ensures var p := w.store.payouts[id]; RowFits(p, w.gateway) && p.facts.key == p.facts.id && |p.facts.key| <= 100
  {
    RowFacts(w, id, true);
    hide Tidy, Safe, RowFits, TasksFit, WiresFit, ReferencesDistinct;
  }

  lemma CallBelief(w: World, tid: int)
    requires Safe(w, true) && Belief(w) && Enabled(w, Call(tid))
    ensures Belief(Next(w, Call(tid)))
  {
    hide Safe, Belief, Tidy, Touched, FitsAt, RowFits, Plausible, Linked, Send;
    CopyFits(w, tid);
    var p := w.tasks[tid].p;
    FoundAt(w.store, p.facts.id, w.gateway);
    RowAt(w, p.facts.id);
    if p.status == Approved {
      if Submittable(w.store.payouts[p.facts.id]) {
        SendBelief(w, tid, w.store.payouts[p.facts.id]);
      } else {
        KeptBelief(w, tid);
      }
    } else if Recoverable(p, w.now) {
      SendBelief(w, tid, p);
    } else {
      TouchBelief(w, tid, p.facts.id);
    }
  }

  lemma KeptBelief(w: World, tid: int)
    requires Belief(w)
    ensures Belief(Done(w, tid, w.store))
  {
    BeliefDone(w, tid, w.store);
  }

  lemma InsertedBelief(s: Store, p: Payout, g: Gateway)
    requires Tidy(s) && p.facts.id !in s.payouts && (p.status == Requested || p.status == Approved) && RowsFit(s, g)
    ensures RowsFit(Inserted(s, p).0, g)
  {
    InsertedShape(s, p);
    hide Inserted, Tidy;
  }

  lemma RequestBelief(w: World, limits: Option<Limits>, input: RequestInput, beneficiary: Option<Beneficiary>, id: string)
    requires Belief(w) && Enabled(w, Request(limits, input, beneficiary, id))
    ensures Belief(Next(w, Request(limits, input, beneficiary, id)))
  {
    hide Tidy, Judge, Inserted, RowsFit, TasksFit, WiresFit, ReferencesDistinct;
    var v := Judge(w.store, limits, input, beneficiary, w.now);
    if v.Admit? {
      JudgedStatus(w.store, limits, input, beneficiary, w.now);
      InsertedBelief(w.store, NewPayout(id, input, v.destination, v.status, w.now), w.gateway);
    }
  }

  lemma InsertBelief(w: World, tid: int, id: string)
    requires Safe(w, true) && Belief(w) && Enabled(w, Insert(tid, id))
    ensures Belief(Next(w, Insert(tid, id)))
  {
    var t := w.tasks[tid];
    assert TaskSafe(t, w.store);
    hide Safe, Tidy, Inserted, RowsFit, TasksFit, WiresFit, ReferencesDistinct;
    InsertedBelief(w.store, NewPayout(id, t.input, t.destination, t.status, w.now), w.gateway);
    BeliefDone(w, tid, Inserted(w.store, NewPayout(id, t.input, t.destination, t.status, w.now)).0);
  }

  lemma ReadBelief(w: World, tid: int, id: string)
    requires Belief(w) && Enabled(w, Read(tid, id))
    ensures Belief(Next(w, Read(tid, id)))
  {
    hide Tidy, RowFits, WiresFit, ReferencesDistinct;
    BeliefTask(w, tid, Holding(w.store.payouts[id]));
  }

  lemma DraftBelief(w: World, tid: int, limits: Option<Limits>, input: RequestInput, beneficiary: Option<Beneficiary>)
    requires Belief(w) && Enabled(w, Draft(tid, limits, input, beneficiary))
    ensures Belief(Next(w, Draft(tid, limits, input, beneficiary)))
  {
    assert Tidy(w.store);
    hide Tidy, Judge, Belief;
    var v := Judge(w.store, limits, input, beneficiary, w.now);
    BeliefTask(w, tid, Drafted(input, v.destination, v.status));
  }

  lemma TakeAnswerBelief(w: World, tid: int)
    requires Safe(w, true) && Belief(w) && Enabled(w, TakeAnswer(tid))
    ensures Belief(Next(w, TakeAnswer(tid)))
  {
    hide Safe, Tidy, RowFits, Iris.CreateOutcome, CreateFits, Copies, FitsAt, Iris.Sendable, RowsFit, ReferencesDistinct;
    CopyFits(w, tid);
    assert WireFits(w.wire[tid], w.gateway);
    hide Belief;
    BeliefTask(w, tid, Answered(w.tasks[tid].p, Iris.CreateOutcome(w.wire[tid].answer)));
  }

  lemma GiveUpBelief(w: World, tid: int)
    requires Safe(w, true) && Belief(w) && Enabled(w, GiveUp(tid))
    ensures Belief(Next(w, GiveUp(tid)))
  {
    hide Safe, Tidy, RowFits, Copies, FitsAt, Iris.Sendable, Belief;
    CopyFits(w, tid);
    BeliefTask(w, tid, Answered(w.tasks[tid].p, Err(Iris.OutcomeUnknown)));
  }

  lemma TickBelief(w: World, elapsed: nat)
    requires Belief(w)
    ensures Belief(Next(w, Tick(elapsed)))
  {
    hide Tidy, RowsFit, TasksFit, WiresFit, ReferencesDistinct;
  }

  lemma DropBelief(w: World, tid: int)
    requires Belief(w) && Enabled(w, Drop(tid))
    ensures Belief(Next(w, Drop(tid)))
  {
    hide Tidy, Belief;
    KeptBelief(w, tid);
  }

  lemma NextBelief(w: World, step: Step)
    requires Safe(w, true) && Belief(w) && Enabled(w, step) && Timely(w, step) && Honest(w, step)
    ensures Belief(Next(w, step))
  {
    hide *;
    match step
    case Tick(elapsed) => TickBelief(w, elapsed);
    case Request(limits, input, beneficiary, id) => RequestBelief(w, limits, input, beneficiary, id);
    case Draft(tid, limits, input, beneficiary) => DraftBelief(w, tid, limits, input, beneficiary);
    case Insert(tid, id) => InsertBelief(w, tid, id);
    case Read(tid, id) => ReadBelief(w, tid, id);
    case Approve(tid, admin) => ApproveBelief(w, tid, admin);
    case Reject(tid, admin, reason) => RejectBelief(w, tid, admin, reason);
    case Call(tid) => CallBelief(w, tid);
    case Receive(tid, accept, reference, x) => ReceiveBelief(w, tid, accept, reference, x);
    case Progress(key, fate) => ProgressBelief(w, key, fate);
    case TakeAnswer(tid) => TakeAnswerBelief(w, tid);
    case GiveUp(tid) => GiveUpBelief(w, tid);
    case RecordCreate(tid) => RecordCreateBelief(w, tid);
    case Poll(tid, x) => PollBelief(w, tid, x);
    case RecordPoll(tid) => RecordPollBelief(w, tid);
    case Drop(tid) => DropBelief(w, tid);
  }

  lemma {:induction false} RunBelief(w: World, steps: seq<Step>)
    requires Safe(w, true) && Belief(w) && Allowed(w, steps) && InTime(w, steps) && AllHonest(w, steps)
    ensures Belief(Run(w, steps))
    decreases |steps|
  {
    SafeIsTidy(w, true);
    hide Safe, Enabled, Next, Tidy, Timely, Honest, Belief;
    if steps != [] {
      NextSafe(w, steps[0], true);
      NextBelief(w, steps[0]);
      RunBelief(Next(w, steps[0]), steps[1..]);
    }
  }

  /** What a status promises about the transfers the gateway started and what became of them. */
  predicate StatusIsTrue(p: Payout, record: Option<KeyRecord>, transfers: nat) {
    && (p.status == Submitted ==> transfers == 1 && record.Some? && p.referenceNo == Some(record.value.reference))
    && (p.status == Completed ==> transfers == 1 && record.Some? && record.value.fate == Paid)
    && (p.status == Failed ==> transfers == 0 || (record.Some? && record.value.fate == Bounced))
  }

  lemma BelievedRow(w: World, id: string)
    requires Safe(w, true) && Belief(w) && id in w.store.payouts
    ensures StatusIsTrue(w.store.payouts[id], Lookup(w.gateway.records, id), Transfers(w.gateway, id))
  {
    assert RowFits(w.store.payouts[id], w.gateway) && w.store.payouts[id].facts.id == id;
    assert KeySafeAt(w.store, w.gateway, w.firstSend, w.now, true, id);
    hide Safe, Belief, Tidy, Path, Iris.Sendable;
  }

  lemma StartBelief(start: Time)
    ensures Belief(Start(start))
  {
  }

  /** In every state reached with requests arriving in time and an honest gateway: a submitted payout
      is held by the gateway under the stored reference, a completed one was paid out, and a failed
      one either started no transfer or had it returned. */
  lemma BeliefIsTrue(start: Time, steps: seq<Step>, id: string)
    requires Allowed(Start(start), steps) && InTime(Start(start), steps) && AllHonest(Start(start), steps)
    requires id in Run(Start(start), steps).store.payouts
    ensures var w := Run(Start(start), steps);
      StatusIsTrue(w.store.payouts[id], Lookup(w.gateway.records, id), Transfers(w.gateway, id))
  {
    hide *;
    StartSafe(start, true);
    StartBelief(start);
    RunSafe(Start(start), steps, true);
    RunBelief(Start(start), steps);
    BelievedRow(Run(Start(start), steps), id);
  }
}
