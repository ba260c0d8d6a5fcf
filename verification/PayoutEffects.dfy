/** What a service operation can do to the tables, whatever copy of the row it works from. */
module PayoutEffects {
  import opened Wrappers
  import opened PayoutStatuses
  import opened PayoutStore
  import opened PayoutService
  import Iris

  function Expiry(f: Facts): Option<Time> {
    Some(f.createdAt + IDEMPOTENCY_WINDOW)
  }

  /** The row did not move; at most its sync mark changed. */
  ghost predicate Stays(p: Payout, q: Payout) {
    q == p.(lastSyncedAt := q.lastSyncedAt)
  }

  predicate Kept(at: Option<Time>, at': Option<Time>) { at.Some? ==> at' == at }

  /** A time that was taken is never taken again. */
  predicate KeepsStamps(p: Payout, q: Payout) {
    Kept(p.approvedAt, q.approvedAt) && Kept(p.rejectedAt, q.rejectedAt) && Kept(p.submittedAt, q.submittedAt)
    && Kept(p.completedAt, q.completedAt) && Kept(p.failedAt, q.failedAt)
  }

  /** Entering a status takes its time. */
  predicate Stamped(p: Payout) {
    (p.status == Rejected ==> p.rejectedAt.Some?) && (p.status == Submitted ==> p.submittedAt.Some?)
    && (p.status == Completed ==> p.completedAt.Some?) && (p.status == Failed ==> p.failedAt.Some?)
  }

  /** The row moved along an allowed edge. */
  ghost predicate Moves(p: Payout, q: Payout) {
    q.facts == p.facts && CanTransitionTo(p.status, q.status) && RowAllowed(q) && KeepsStamps(p, q) && Stamped(q)
    && (q.idempotencyExpiresAt == p.idempotencyExpiresAt || q.idempotencyExpiresAt == Expiry(p.facts))
    && (q.status == Unresolved ==> q.idempotencyExpiresAt == Expiry(p.facts))
    && (q.referenceNo == p.referenceNo || q.referenceNo.Some?)
  }

  /** Only payout `id` is touched, and it either stays or makes one recorded and announced move. */
  ghost predicate Effect(s: Store, s': Store, id: string)
    requires Tidy(s)
  {
    && Tidy(s') && s'.order == s.order && s'.payouts.Keys == s.payouts.Keys
    && (forall k :: k in s.payouts && k != id ==>
         (s'.payouts[k] == s.payouts[k] && s'.trail[k] == s.trail[k] && s'.notices[k] == s.notices[k]))
    && (id in s.payouts ==>
         ((Stays(s.payouts[id], s'.payouts[id]) && s'.trail[id] == s.trail[id] && s'.notices[id] == s.notices[id])
          || (Moves(s.payouts[id], s'.payouts[id]) && AppendsMove(s, s', id))))
  }

  /** A row of the history records an allowed edge, and a release names an administrator other than
      the one who asked. */
  ghost predicate Honours(t: Transition, f: Facts) {
    && t.from.Some? && CanTransitionTo(t.from.value, t.to)
    && (t.to == Approved ==> t.actor.ByAdmin? && f.requestedBy != Some(t.actor.adminId))
  }

  ghost predicate AppendsMove(s: Store, s': Store, id: string)
    requires Tidy(s) && Tidy(s') && id in s.payouts && id in s'.payouts
  {
    && |s'.trail[id]| == |s.trail[id]| + 1
    && s'.trail[id][..|s.trail[id]|] == s.trail[id]
    && s'.trail[id][|s.trail[id]|].to == s'.payouts[id].status
    && Honours(s'.trail[id][|s.trail[id]|], s.payouts[id].facts)
    && s'.notices[id] == s.notices[id] + Announcement(s'.payouts[id].status)
  }

  /** The row this update writes for the status it names. */
  ghost predicate Sound(u: StateUpdate, f: Facts) {
    (u.idempotencyExpiresAt.None? || u.idempotencyExpiresAt == Expiry(f))
    && (u.status == Unresolved ==> u.idempotencyExpiresAt.Some?)
  }

  lemma UpdatedRowMoves(s: Store, id: string, u: StateUpdate, now: Time)
    requires Tidy(s) && UpdatedRow(s, id, u, now).Ok? && Sound(u, s.payouts[id].facts)
    ensures Moves(s.payouts[id], UpdatedRow(s, id, u, now).value)
    ensures !ReferenceTaken(s.payouts, UpdatedRow(s, id, u, now).value)
    ensures UpdatedRow(s, id, u, now).value.referenceNo == KeepSome(u.referenceNo, s.payouts[id].referenceNo)
    ensures UpdatedRow(s, id, u, now).value.approvedBy == KeepSome(u.approvedBy, s.payouts[id].approvedBy)
  {
    hide ReferenceTaken;
  }

  lemma MovedHasEffect(s: Store, p: Payout, u: StateUpdate, actor: Actor, reason: Reason, now: Time)
    requires Tidy(s)
    requires p.facts.id in s.payouts ==>
      Sound(u, s.payouts[p.facts.id].facts)
      && Honours(Transition(Some(p.status), u.status, actor, reason, now), s.payouts[p.facts.id].facts)
    ensures Effect(s, Moved(s, p, u, actor, reason, now).0, p.facts.id)
  {
    hide UpdatedRow, Moves, Stays, Effect, Put, Tidy, Honours;
    var id := p.facts.id;
    if UpdatedRow(s, id, u, now).Ok? {
      UpdatedRowMoves(s, id, u, now);
      MovingPutHasEffect(s, id, UpdatedRow(s, id, u, now).value, Transition(Some(p.status), u.status, actor, reason, now));
    } else {
      StaysPut(s, id);
    }
  }

  lemma PutFrame(s: Store, id: string, row: Payout, rows: seq<Transition>, events: seq<PayoutEvent>)
    requires Tidy(s) && id in s.payouts && row.facts == s.payouts[id].facts
    ensures var s' := Put(s, id, row, rows, events);
      && s'.order == s.order && s'.payouts.Keys == s.payouts.Keys
      && s'.payouts[id] == row && s'.trail[id] == rows && s'.notices[id] == events
      && forall k :: k in s.payouts && k != id ==>
           (s'.payouts[k] == s.payouts[k] && s'.trail[k] == s.trail[k] && s'.notices[k] == s.notices[k])
  {
  }

  lemma MovingPutAppends(s: Store, id: string, q: Payout, row: Transition)
    requires Tidy(s) && id in s.payouts && q.facts == s.payouts[id].facts
    requires row.to == q.status && Honours(row, q.facts)
    ensures AppendsMove(s, Put(s, id, q, s.trail[id] + [row], s.notices[id] + Announcement(q.status)), id)
  {
    PutFrame(s, id, q, s.trail[id] + [row], s.notices[id] + Announcement(q.status));
    hide Announcement, Put, Tidy, Honours;
    assert (s.trail[id] + [row])[..|s.trail[id]|] == s.trail[id];
  }

  lemma MovingPutHasEffect(s: Store, id: string, q: Payout, row: Transition)
    requires Tidy(s) && id in s.payouts && q.facts == s.payouts[id].facts && Moves(s.payouts[id], q)
    requires row.to == q.status && Honours(row, q.facts)
    ensures Effect(s, Put(s, id, q, s.trail[id] + [row], s.notices[id] + Announcement(q.status)), id)
  {
    PutFrame(s, id, q, s.trail[id] + [row], s.notices[id] + Announcement(q.status));
    MovingPutAppends(s, id, q, row);
    hide Moves, Stays, Announcement, Put, Tidy, AppendsMove;
  }

  lemma StaysPut(s: Store, id: string)
    requires Tidy(s)
    ensures Effect(s, s, id)
  {
  }

  lemma StayingPutHasEffect(s: Store, id: string, q: Payout)
    requires Tidy(s) && id in s.payouts && q.facts == s.payouts[id].facts && Stays(s.payouts[id], q)
    ensures Effect(s, Put(s, id, q, s.trail[id], s.notices[id]), id)
  {
    PutFrame(s, id, q, s.trail[id], s.notices[id]);
    hide Moves, Stays, Put, Tidy;
  }

  lemma TouchedHasEffect(s: Store, id: string, now: Time)
    requires Tidy(s)
    ensures Effect(s, Touched(s, id, now), id)
  {
    hide Effect, Put, Tidy;
    if id in s.payouts {
      StayingPutHasEffect(s, id, s.payouts[id].(lastSyncedAt := Some(now)));
    } else {
      StaysPut(s, id);
    }
  }

  /** The caller's copy agrees with the row on what never changes. */
  predicate Copies(s: Store, p: Payout) {
    p.facts.id in s.payouts ==> s.payouts[p.facts.id].facts == p.facts
  }

  lemma ApprovingHasEffect(s: Store, p: Payout, admin: string, now: Time)
    requires Tidy(s) && Copies(s, p)
    ensures Effect(s, Approving(s, p, admin, now).0, p.facts.id)
  {
    hide Effect, Moved;
    StaysPut(s, p.facts.id);
    if NeedsApproval(p) && p.facts.requestedBy != Some(admin) {
      MovedHasEffect(s, p, To(Approved).(approvedBy := admin), ByAdmin(admin), NoReason, now);
    }
  }

  lemma RejectingHasEffect(s: Store, p: Payout, admin: string, reason: string, now: Time)
    requires Tidy(s)
    ensures Effect(s, Rejecting(s, p, admin, reason, now).0, p.facts.id)
  {
    hide Effect, Moved;
    StaysPut(s, p.facts.id);
    if NeedsApproval(p) {
      MovedHasEffect(s, p, To(Rejected).(rejectedBy := admin, rejectReason := reason), ByAdmin(admin), Given(reason), now);
    }
  }

  lemma ResultAppliedHasEffect(s: Store, p: Payout, result: Iris.PayoutResult, reason: Reason, now: Time)
    requires Tidy(s) && Iris.Reportable(result.status)
    ensures Effect(s, ResultApplied(s, p, result, reason, now).0, p.facts.id)
  {
    hide Effect, Moved, Touched;
    if CanTransitionTo(p.status, result.status) {
      MovedHasEffect(s, p, ResultUpdate(result), ByGateway, reason, now);
    } else {
      TouchedHasEffect(s, p.facts.id, now);
    }
  }

  lemma FailureRecordedHasEffect(s: Store, p: Payout, cause: Iris.CallError, now: Time)
    requires Tidy(s) && Copies(s, p)
    requires p.status == Approved || (p.status == Unresolved && cause != Iris.OutcomeUnknown)
    ensures Effect(s, FailureRecorded(s, p, cause, now).0, p.facts.id)
  {
    hide Effect, Moved, Tidy;
    if cause == Iris.OutcomeUnknown {
      MovedHasEffect(s, p, UnknownUpdate(p), ByGateway, OutcomeWasUnknown, now);
    } else {
      MovedHasEffect(s, p, To(Failed).(failure := Some(cause)), ByGateway, RefusedByGateway, now);
    }
  }

  type Outcome = Result<Iris.PayoutResult, Iris.CallError>

  predicate Plausible(outcome: Outcome) {
    outcome.Ok? ==> Iris.Reportable(outcome.value.status)
  }

  lemma CreateRecordedHasEffect(s: Store, p: Payout, outcome: Outcome, now: Time)
    requires Tidy(s) && Copies(s, p) && (p.status == Approved || p.status == Unresolved)
    requires Plausible(outcome)
    ensures Effect(s, CreateRecorded(s, p, outcome, now).0, p.facts.id)
  {
    hide Effect, FailureRecorded, ResultApplied, Touched, Tidy;
    match outcome
    case Ok(result) =>
      ResultAppliedHasEffect(s, p, result, if p.status == Unresolved then ResolvedUnderKey else NoReason, now);
    case Err(cause) =>
      TouchedHasEffect(s, p.facts.id, now);
      if p.status == Approved || cause != Iris.OutcomeUnknown {
        FailureRecordedHasEffect(s, p, cause, now);
      }
  }

  lemma PollRecordedHasEffect(s: Store, p: Payout, outcome: Outcome, now: Time)
    requires Tidy(s) && Plausible(outcome)
    ensures Effect(s, PollRecorded(s, p, outcome, now).0, p.facts.id)
  {
    hide Effect, ResultApplied, Touched, Tidy;
    match outcome
    case Ok(result) => ResultAppliedHasEffect(s, p, result, Reconciled, now);
    case Err(_) =>
      StaysPut(s, p.facts.id);
      TouchedHasEffect(s, p.facts.id, now);
  }
}
