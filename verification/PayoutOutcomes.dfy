/** What an exchange with the gateway, or an administrator's word, makes of a payout: read off the exchange
    and written out column by column, for whatever copy of the row it is recorded from. */
module PayoutOutcomes {
  import opened Wrappers
  import opened PayoutStatuses
  import opened PayoutStore
  import opened PayoutService
  import GoStrings
  import Iris

  /** Nothing is written; the payout is marked as asked about; or it moves. */
  datatype Decision =
    | Leave
    | Mark
    | Move(to: PayoutStatus, word: string, reference: string, failure: Option<Iris.CallError>, reason: Reason)

  /** What the answer to a read says about a submitted payout. */
  function Polled(x: Iris.Exchange): Decision {
    if !x.Answer? then Leave
    else if 400 <= x.code then
      if x.code == 404 && !GoStrings.Contains(GoStrings.ToLower(x.message), "insufficient") then Mark else Leave
    else if x.body.Unreadable? || x.body.entries == [] then Leave
    else
      var e := x.body.entries[0];
      match Iris.MapStatus(e.word)
      case Some(Completed) => Move(Completed, e.word, e.reference, None, Reconciled)
      case Some(Failed) => Move(Failed, e.word, e.reference, None, Reconciled)
      case Some(_) => Mark
      case None => Leave
  }

  /** Why the client says that a payout which was sent has failed. */
  function Complaint(x: Iris.Exchange): Iris.CallError {
    if !x.Answer? || x.code < 400 then Iris.UnmappedStatus
    else if x.code == 409 then Iris.IdempotencyConflict
    else if GoStrings.Contains(GoStrings.ToLower(x.message), "insufficient") then Iris.InsufficientBalance
    else Iris.GatewayError(false)
  }

  /** What the answer to a create says about a payout that was approved, or sent with an unknown outcome. */
  function Sent(p: Payout, x: Iris.Exchange): Decision {
    var again := p.status == Unresolved;
    if !Iris.Sendable(p.facts.currency) then Move(Failed, "", "", Some(Iris.UnusableAmount), RefusedByGateway)
    else if Iris.Declined(x) then Move(Failed, "", "", Some(Complaint(x)), RefusedByGateway)
    else if Iris.Held(x).None? then
      if again then Mark else Move(Unresolved, "", "", Some(Iris.OutcomeUnknown), OutcomeWasUnknown)
    else
      var e := Iris.Held(x).value;
      match Iris.MapStatus(e.word)
      case None => Move(Failed, "", "", Some(Iris.UnmappedStatus), RefusedByGateway)
      case Some(Rejected) => Mark
      case Some(Completed) => if again then Move(Completed, e.word, e.reference, None, ResolvedUnderKey) else Mark
      case Some(to) => Move(to, e.word, e.reference, None, if again then ResolvedUnderKey else NoReason)
  }

  // ---- carried out on the tables ----

  /** Nothing changes but the tables' entries for one payout. */
  ghost predicate OnlyAt(s: Store, s': Store, id: string) {
    && s'.order == s.order && s'.payouts.Keys == s.payouts.Keys && s'.trail.Keys == s.trail.Keys && s'.notices.Keys == s.notices.Keys
    && (forall k :: k in s.payouts && k != id ==> s'.payouts[k] == s.payouts[k])
    && (forall k :: k in s.trail && k != id ==> s'.trail[k] == s.trail[k])
    && (forall k :: k in s.notices && k != id ==> s'.notices[k] == s.notices[k])
  }

  function Once(entered: bool, at: Option<Time>, now: Time): Option<Time> {
    if entered && at.None? then Some(now) else at
  }

  /** Every column of a row that the gateway moved.  Only what the gateway reported marks the row as synced. */
  predicate MovedRow(q: Payout, q': Payout, d: Decision, now: Time)
    requires d.Move?
  {
    && q'.facts == q.facts && q'.status == d.to && q'.updatedAt == now
    && q'.gatewayStatus == (if d.word == "" then q.gatewayStatus else d.word)
    && q'.referenceNo == (if d.reference == "" then q.referenceNo else Some(d.reference))
    && q'.failure == (if d.failure.None? then q.failure else d.failure)
    && q'.approvedBy == q.approvedBy && q'.approvedAt == q.approvedAt
    && q'.rejectedBy == q.rejectedBy && q'.rejectedAt == q.rejectedAt && q'.rejectReason == q.rejectReason
    && q'.submittedAt == Once(d.to == Submitted, q.submittedAt, now)
    && q'.completedAt == Once(d.to == Completed, q.completedAt, now)
    && q'.failedAt == Once(d.to == Failed, q.failedAt, now)
    && q'.lastSyncedAt == (if d.failure.None? then Some(now) else q.lastSyncedAt)
    && q'.idempotencyExpiresAt == (if d.to == Unresolved then Some(q.facts.createdAt + 20 * 3600) else q.idempotencyExpiresAt)
  }

  /** The event of an outcome; an unknown one has none. */
  function EventsOf(to: PayoutStatus): seq<PayoutEvent> {
    if to == Submitted then [PayoutSubmitted]
    else if to == Completed then [PayoutCompleted]
    else if to == Failed then [PayoutFailed]
    else []
  }

  /** A check or the unique index on references stands in the way. */
  predicate Blocked(s: Store, q: Payout, reference: string) {
    !RowAllowed(q) || ReferenceTaken(s.payouts, q.(referenceNo := if reference == "" then q.referenceNo else Some(reference)))
  }

  /** A decision about copy `p` of a payout, carried out on the stored row. */
  ghost predicate CarriedOut(s: Store, p: Payout, d: Decision, now: Time, s': Store, r: Result<Payout, PayoutError>)
    requires Tidy(s) && p.facts.id in s.payouts
  {
    var id, row := p.facts.id, s.payouts[p.facts.id];
    match d
    case Leave => s' == s
    case Mark =>
      OnlyAt(s, s', id) && r == Ok(p) && s'.payouts[id] == row.(lastSyncedAt := Some(now))
      && s'.trail[id] == s.trail[id] && s'.notices[id] == s.notices[id]
    case Move(to, _, reference, _, reason) =>
      if !CanTransitionTo(row.status, to) then s' == s && r == Err(StaleTransition)
      else if Blocked(s, row, reference) then s' == s && r == Err(ConstraintViolation)
      else
        && OnlyAt(s, s', id) && MovedRow(row, s'.payouts[id], d, now)
        && s'.trail[id] == s.trail[id] + [Transition(Some(p.status), to, ByGateway, reason, now)]
        && s'.notices[id] == s.notices[id] + EventsOf(to)
        && r == if to == Unresolved then Err(UnknownOutcome) else Ok(s'.payouts[id])
  }

  predicate IsCopy(s: Store, p: Payout) {
    p.facts.id in s.payouts && s.payouts[p.facts.id].facts == p.facts
  }

  lemma MarkCarriedOut(s: Store, p: Payout, now: Time)
    requires Tidy(s) && IsCopy(s, p)
    ensures CarriedOut(s, p, Mark, now, Touched(s, p.facts.id, now), Ok(p))
  {
  }

  predicate UpdateOf(u: StateUpdate, d: Decision, f: Facts)
    requires d.Move?
  {
    u == StateUpdate(d.to, d.word, d.reference, d.failure, "", "", "",
                     if d.to == Unresolved then Some(f.createdAt + 20 * 3600) else None, d.failure.None?)
  }

  lemma RowMoves(s: Store, id: string, u: StateUpdate, d: Decision, now: Time)
    requires id in s.payouts && s.payouts[id].facts.id == id && d.Move? && UpdateOf(u, d, s.payouts[id].facts)
    requires d.to != Approved && d.to != Rejected
    ensures var r := UpdatedRow(s, id, u, now);
      if !CanTransitionTo(s.payouts[id].status, d.to) then r == Err(StaleTransition)
      else if Blocked(s, s.payouts[id], d.reference) then r == Err(ConstraintViolation)
      else r.Ok? && MovedRow(s.payouts[id], r.value, d, now)
  {
  }

  lemma PutOnlyAt(s: Store, id: string, row: Payout, rows: seq<Transition>, events: seq<PayoutEvent>)
    requires Tidy(s) && id in s.payouts && row.facts == s.payouts[id].facts
    ensures var s' := Put(s, id, row, rows, events);
      OnlyAt(s, s', id) && s'.payouts[id] == row && s'.trail[id] == rows && s'.notices[id] == events
  {
  }

  /** A move writes the row, one history row and the events of its status, or nothing. */
  lemma MoveWrites(s: Store, p: Payout, u: StateUpdate, actor: Actor, reason: Reason, now: Time)
    requires Tidy(s) && IsCopy(s, p)
    ensures var (s', r) := Moved(s, p, u, actor, reason, now); var id := p.facts.id;
      r == UpdatedRow(s, id, u, now)
      && if r.Err? then s' == s
         else
           && OnlyAt(s, s', id) && s'.payouts[id] == r.value
           && s'.trail[id] == s.trail[id] + [Transition(Some(p.status), u.status, actor, reason, now)]
           && s'.notices[id] == s.notices[id] + Announcement(u.status)
  {
    var id := p.facts.id;
    assert id in s.trail && id in s.notices;
    hide UpdatedRow, Announcement, Put, OnlyAt, Tidy;
    if UpdatedRow(s, id, u, now).Ok? {
      PutOnlyAt(s, id, UpdatedRow(s, id, u, now).value, s.trail[id] + [Transition(Some(p.status), u.status, actor, reason, now)],
                s.notices[id] + Announcement(u.status));
    }
  }

  lemma MoveCarriedOut(s: Store, p: Payout, u: StateUpdate, d: Decision, now: Time)
    requires Tidy(s) && IsCopy(s, p) && d.Move? && UpdateOf(u, d, p.facts)
    requires d.to == Submitted || d.to == Completed || d.to == Failed || d.to == Unresolved
    ensures var (s', r) := Moved(s, p, u, ByGateway, d.reason, now);
      CarriedOut(s, p, d, now, s', if d.to == Unresolved && r.Ok? then Err(UnknownOutcome) else r)
  {
    assert s.payouts[p.facts.id].facts.id == p.facts.id;
    RowMoves(s, p.facts.id, u, d, now);
    MoveWrites(s, p, u, ByGateway, d.reason, now);
    assert Announcement(d.to) == EventsOf(d.to);
    hide UpdatedRow, Blocked, MovedRow, CanTransitionTo, Moved, OnlyAt, Tidy, Announcement, EventsOf;
  }

  lemma ResultCarriedOut(s: Store, p: Payout, result: Iris.PayoutResult, reason: Reason, now: Time)
    requires Tidy(s) && IsCopy(s, p) && Iris.Reportable(result.status) && InFlight(p.status)
    ensures var (s', r) := ResultApplied(s, p, result, reason, now);
      var d := if CanTransitionTo(p.status, result.status) then Move(result.status, result.word, result.reference, None, reason) else Mark;
      CarriedOut(s, p, d, now, s', r)
  {
    hide Tidy, CarriedOut, Moved, Touched;
    if CanTransitionTo(p.status, result.status) {
      MoveCarriedOut(s, p, ResultUpdate(result), Move(result.status, result.word, result.reference, None, reason), now);
    } else {
      MarkCarriedOut(s, p, now);
    }
  }

  lemma FailureCarriedOut(s: Store, p: Payout, cause: Iris.CallError, now: Time)
    requires Tidy(s) && IsCopy(s, p)
    ensures var (s', r) := FailureRecorded(s, p, cause, now);
      var d := if cause == Iris.OutcomeUnknown then Move(Unresolved, "", "", Some(cause), OutcomeWasUnknown)
               else Move(Failed, "", "", Some(cause), RefusedByGateway);
      CarriedOut(s, p, d, now, s', r)
  {
    hide Tidy, CarriedOut, Moved;
    if cause == Iris.OutcomeUnknown {
      MoveCarriedOut(s, p, UnknownUpdate(p), Move(Unresolved, "", "", Some(cause), OutcomeWasUnknown), now);
    } else {
      MoveCarriedOut(s, p, To(Failed).(failure := Some(cause)), Move(Failed, "", "", Some(cause), RefusedByGateway), now);
    }
  }

  // ---- what the client makes of an exchange ----

  /** Whatever the client returns for a create is what the exchange said. */
  lemma CreateIsRead(currency: string, x: Iris.Exchange)
    ensures var o := Iris.CreatePayout(currency, x);
      if !Iris.Sendable(currency) then o == Err(Iris.UnusableAmount)
      else if Iris.Declined(x) then o == Err(Complaint(x)) && o != Err(Iris.OutcomeUnknown)
      else if Iris.Held(x).None? then o == Err(Iris.OutcomeUnknown)
      else
        var e := Iris.Held(x).value;
        o == if Iris.MapStatus(e.word).None? then Err(Iris.UnmappedStatus)
             else Ok(Iris.PayoutResult(Iris.MapStatus(e.word).value, e.reference, e.word))
  {
    hide Iris.MapStatus, GoStrings.Contains, GoStrings.ToLower, Iris.Sendable;
  }

  lemma PollIsRead(x: Iris.Exchange)
    ensures var o := Iris.GetPayout(x);
      match Polled(x)
      case Leave => o.Err? && o.error != Iris.NotFound
      case Mark => o == Err(Iris.NotFound) || (o.Ok? && (o.value.status == Submitted || o.value.status == Rejected))
      case Move(to, word, reference, failure, reason) =>
        o == Ok(Iris.PayoutResult(to, reference, word)) && failure == None && reason == Reconciled && (to == Completed || to == Failed)
  {
    Iris.Vocabulary("");
    NothingMapped();
    hide Iris.MapStatus, GoStrings.Contains, GoStrings.ToLower;
  }

  lemma NothingMapped()
    ensures Iris.MapStatus("") == None
  {
    Iris.Vocabulary("");
    assert GoStrings.SpaceAtStart("") == 0 && GoStrings.SpaceAtEnd("") == 0;
    assert GoStrings.TrimSpace("") == "" && GoStrings.ToLower("") == "";
    hide Iris.MapStatus;
  }

  // ---- the operations ----

  lemma CreateCarriedOut(s: Store, p: Payout, x: Iris.Exchange, now: Time)
    requires Tidy(s) && IsCopy(s, p) && (p.status == Approved || p.status == Unresolved)
    ensures var (s', r) := CreateRecorded(s, p, Iris.CreatePayout(p.facts.currency, x), now);
      CarriedOut(s, p, Sent(p, x), now, s', r)
  {
    CreateIsRead(p.facts.currency, x);
    var outcome := Iris.CreatePayout(p.facts.currency, x);
    hide Tidy, CarriedOut, ResultApplied, FailureRecorded, Touched, Complaint, Iris.MapStatus, Iris.Held, Iris.Declined,
         Iris.Sendable, Iris.CreatePayout;
    match outcome
    case Ok(result) => ResultCarriedOut(s, p, result, if p.status == Unresolved then ResolvedUnderKey else NoReason, now);
    case Err(cause) =>
      if p.status == Unresolved && cause == Iris.OutcomeUnknown {
        MarkCarriedOut(s, p, now);
      } else {
        FailureCarriedOut(s, p, cause, now);
      }
  }

  lemma PollCarriedOut(s: Store, p: Payout, x: Iris.Exchange, now: Time)
    requires Tidy(s) && IsCopy(s, p) && p.status == Submitted
    ensures var (s', r) := PollRecorded(s, p, Iris.GetPayout(x), now);
      CarriedOut(s, p, Polled(x), now, s', r) && (Polled(x).Leave? ==> s' == s && r == Err(GatewayFailure))
  {
    PollIsRead(x);
    hide Tidy, ResultApplied, Touched, Polled, Iris.GetPayout, MovedRow, Blocked;
    match Iris.GetPayout(x)
    case Ok(result) => ResultCarriedOut(s, p, result, Reconciled, now);
    case Err(cause) => MarkCarriedOut(s, p, now);
  }

  /** Submitting: the row is read anew, only an approved one is sent, and what comes of it is what the
      exchange says. */
  lemma SubmittingDecides(s: Store, id: string, x: Iris.Exchange, now: Time)
    requires Tidy(s)
    ensures var (s', r) := Submitting(s, id, x, now);
      if id !in s.payouts then s' == s && r == Err(PayoutNotFound)
      else if s.payouts[id].status != Approved then s' == s && r == Err(NotAwaitingSubmission)
      else s.payouts[id].facts.id == id && CarriedOut(s, s.payouts[id], Sent(s.payouts[id], x), now, s', r)
  {
    if id in s.payouts && s.payouts[id].status == Approved {
      assert s.payouts[id].facts.id == id;
      CreateCarriedOut(s, s.payouts[id], x, now);
    }
    hide CarriedOut, Sent, CreateRecorded, Iris.CreatePayout, Tidy;
  }

  /** Reconciling from any copy: an approved payout is submitted; a submitted one is moved by a word for
      completed or failed, only marked by any other known word, by a 404 and when it has no reference, and left
      alone by every other answer; one with an unknown outcome is sent again within twenty hours of its
      request and moved as the exchange says, and after that only marked; any other is left alone. */
  lemma ReconcilingDecides(s: Store, p: Payout, x: Iris.Exchange, now: Time)
    requires Tidy(s) && IsCopy(s, p)
    ensures var (s', r) := Reconciling(s, p, x, now);
      match p.status
      case Approved => (s', r) == Submitting(s, p.facts.id, x, now)
      case Submitted =>
        CarriedOut(s, p, if p.referenceNo.None? then Mark else Polled(x), now, s', r)
        && (p.referenceNo.Some? && Polled(x).Leave? ==> r == Err(GatewayFailure))
      case Unresolved =>
        CarriedOut(s, p, if p.idempotencyExpiresAt.Some? && now < p.idempotencyExpiresAt.value then Sent(p, x) else Mark, now, s', r)
      case _ => s' == s && r == Ok(p)
  {
    if p.status == Submitted && p.referenceNo.Some? {
      PollCarriedOut(s, p, x, now);
    } else if p.status == Unresolved && Recoverable(p, now) {
      CreateCarriedOut(s, p, x, now);
    } else {
      MarkCarriedOut(s, p, now);
    }
    hide CarriedOut, Sent, Polled, PollRecorded, CreateRecorded, Submitting, Touched, Iris.CreatePayout, Iris.GetPayout, Tidy;
  }

  /** A submitted payout settles: an up-to-date copy with a reference ends completed or failed when the word
      says so, with its time, its history row and its event, and otherwise stays submitted. */
  lemma PollingSettles(s: Store, p: Payout, x: Iris.Exchange, now: Time)
    requires Tidy(s) && p.facts.id in s.payouts && s.payouts[p.facts.id] == p && p.status == Submitted && p.referenceNo.Some?
    requires Iris.Held(x).Some? ==> !Blocked(s, p, Iris.Held(x).value.reference)
    ensures var (s', r) := Reconciling(s, p, x, now); var id := p.facts.id;
      var word := if Iris.Held(x).Some? then Iris.MapStatus(Iris.Held(x).value.word) else None;
      && id in s'.payouts && id in s'.trail && id in s'.notices
      && s'.payouts[id].status == (if word == Some(Completed) then Completed else if word == Some(Failed) then Failed else Submitted)
      && (word == Some(Completed) ==>
            s'.trail[id] == s.trail[id] + [Transition(Some(Submitted), Completed, ByGateway, Reconciled, now)]
            && s'.notices[id] == s.notices[id] + [PayoutCompleted]
            && (p.completedAt.None? ==> s'.payouts[id].completedAt == Some(now)))
      && (word == Some(Failed) ==>
            s'.trail[id] == s.trail[id] + [Transition(Some(Submitted), Failed, ByGateway, Reconciled, now)]
            && s'.notices[id] == s.notices[id] + [PayoutFailed]
            && (p.failedAt.None? ==> s'.payouts[id].failedAt == Some(now)))
      && (word != Some(Completed) && word != Some(Failed) ==> s'.trail[id] == s.trail[id] && s'.notices[id] == s.notices[id])
  {
    PolledByWord(x);
    ReconcilingDecides(s, p, x, now);
    var (s', r) := Reconciling(s, p, x, now);
    hide Reconciling, Polled, Iris.Held, Iris.MapStatus, Tidy;
    if Polled(x).Move? {
      MovedOn(s, p, Polled(x), now, s', r);
    }
    hide CarriedOut, Blocked;
  }

  lemma PolledByWord(x: Iris.Exchange)
    ensures var word := if Iris.Held(x).Some? then Iris.MapStatus(Iris.Held(x).value.word) else None;
      && (Polled(x).Move? <==> word == Some(Completed) || word == Some(Failed))
      && (Polled(x).Move? ==>
            word == Some(Polled(x).to) && Polled(x).reference == Iris.Held(x).value.reference
            && Polled(x).reason == Reconciled && Polled(x).failure == None)
  {
    hide Iris.MapStatus, GoStrings.Contains, GoStrings.ToLower;
  }

  lemma MovedOn(s: Store, p: Payout, d: Decision, now: Time, s': Store, r: Result<Payout, PayoutError>)
    requires Tidy(s) && p.facts.id in s.payouts && s.payouts[p.facts.id] == p && p.status == Submitted
    requires d.Move? && (d.to == Completed || d.to == Failed) && CarriedOut(s, p, d, now, s', r) && !Blocked(s, p, d.reference)
    ensures var id := p.facts.id;
      && id in s'.payouts && id in s'.trail && id in s'.notices && s'.payouts[id].status == d.to
      && s'.trail[id] == s.trail[id] + [Transition(Some(Submitted), d.to, ByGateway, d.reason, now)]
      && s'.notices[id] == s.notices[id] + EventsOf(d.to)
      && s'.payouts[id].completedAt == Once(d.to == Completed, p.completedAt, now)
      && s'.payouts[id].failedAt == Once(d.to == Failed, p.failedAt, now)
  {
    hide Blocked, Once;
  }

  // ---- administrators ----

  /** Approving from any copy: only a pending payout, only by another administrator than the one who asked,
      and only while the stored row is pending too. */
  lemma ApprovingDecides(s: Store, p: Payout, admin: string, now: Time)
    requires Tidy(s) && IsCopy(s, p) && admin != ""
    ensures var (s', r) := Approving(s, p, admin, now); var id, row := p.facts.id, s.payouts[p.facts.id];
      var approved := row.(status := Approved, approvedBy := Some(admin), updatedAt := now,
                           approvedAt := if row.approvedAt.None? then Some(now) else row.approvedAt);
      if p.status != Requested then s' == s && r == Err(NotPending)
      else if p.facts.requestedBy == Some(admin) then s' == s && r == Err(SelfApproval)
      else if row.status != Requested then s' == s && r == Err(StaleTransition)
      else if Blocked(s, approved, "") then s' == s && r == Err(ConstraintViolation)
      else
        && OnlyAt(s, s', id) && s'.payouts[id] == approved && r == Ok(approved)
        && s'.trail[id] == s.trail[id] + [Transition(Some(Requested), Approved, ByAdmin(admin), NoReason, now)]
        && s'.notices[id] == s.notices[id] + [PayoutApproved]
  {
    var u := To(Approved).(approvedBy := admin);
    assert s.payouts[p.facts.id].facts.id == p.facts.id && Announcement(Approved) == [PayoutApproved];
    ApprovedRow(s.payouts[p.facts.id], admin, now);
    hide UpdatedRow, Moved, OnlyAt, Tidy, Blocked, CanTransitionTo, Advance, Announcement;
    MoveWrites(s, p, u, ByAdmin(admin), NoReason, now);
    DecidedRow(s, p.facts.id, u, now);
  }

  /** The guard and the checks on the row of an administrator's decision. */
  lemma DecidedRow(s: Store, id: string, u: StateUpdate, now: Time)
    requires id in s.payouts && s.payouts[id].facts.id == id && u.referenceNo == ""
    ensures var row, r := Advance(s.payouts[id], u, now), UpdatedRow(s, id, u, now);
      r == if !CanTransitionTo(s.payouts[id].status, u.status) then Err(StaleTransition)
           else if Blocked(s, row, "") then Err(ConstraintViolation)
           else Ok(row)
    ensures (u.status == Approved || u.status == Rejected) ==>
      (CanTransitionTo(s.payouts[id].status, u.status) <==> s.payouts[id].status == Requested)
  {
    assert Advance(s.payouts[id], u, now).(referenceNo := Advance(s.payouts[id], u, now).referenceNo) == Advance(s.payouts[id], u, now);
    hide RowAllowed, ReferenceTaken;
  }

  lemma RejectingDecides(s: Store, p: Payout, admin: string, reason: string, now: Time)
    requires Tidy(s) && IsCopy(s, p) && admin != "" && reason != ""
    ensures var (s', r) := Rejecting(s, p, admin, reason, now); var id, row := p.facts.id, s.payouts[p.facts.id];
      var rejected := row.(status := Rejected, rejectedBy := Some(admin), rejectReason := reason, updatedAt := now,
                           rejectedAt := if row.rejectedAt.None? then Some(now) else row.rejectedAt);
      if p.status != Requested then s' == s && r == Err(NotPending)
      else if row.status != Requested then s' == s && r == Err(StaleTransition)
      else if Blocked(s, rejected, "") then s' == s && r == Err(ConstraintViolation)
      else
        && OnlyAt(s, s', id) && s'.payouts[id] == rejected && r == Ok(rejected)
        && s'.trail[id] == s.trail[id] + [Transition(Some(Requested), Rejected, ByAdmin(admin), Given(reason), now)]
        && s'.notices[id] == s.notices[id] + [PayoutRejected]
  {
    var u := To(Rejected).(rejectedBy := admin, rejectReason := reason);
    assert s.payouts[p.facts.id].facts.id == p.facts.id && Announcement(Rejected) == [PayoutRejected];
    RejectedRow(s.payouts[p.facts.id], admin, reason, now);
    hide UpdatedRow, Moved, OnlyAt, Tidy, Blocked, CanTransitionTo, Advance, Announcement;
    MoveWrites(s, p, u, ByAdmin(admin), Given(reason), now);
    DecidedRow(s, p.facts.id, u, now);
  }

  lemma ApprovedRow(row: Payout, admin: string, now: Time)
    requires admin != ""
    ensures Advance(row, To(Approved).(approvedBy := admin), now)
      == row.(status := Approved, approvedBy := Some(admin), updatedAt := now,
              approvedAt := if row.approvedAt.None? then Some(now) else row.approvedAt)
  {
  }

  lemma RejectedRow(row: Payout, admin: string, reason: string, now: Time)
    requires admin != "" && reason != ""
    ensures Advance(row, To(Rejected).(rejectedBy := admin, rejectReason := reason), now)
      == row.(status := Rejected, rejectedBy := Some(admin), rejectReason := reason, updatedAt := now,
              rejectedAt := if row.rejectedAt.None? then Some(now) else row.rejectedAt)
  {
  }

  // ---- a batch ----

  /** A batch as it is claimed: up-to-date copies of different payouts. */
  ghost predicate UpToDate(s: Store, claimed: seq<Payout>) {
    && (forall i :: 0 <= i < |claimed| ==> claimed[i].facts.id in s.payouts && s.payouts[claimed[i].facts.id] == claimed[i])
    && (forall i, j :: 0 <= i < j < |claimed| ==> claimed[i].facts.id != claimed[j].facts.id)
  }

  ghost predicate SameAt(s: Store, s': Store, id: string) {
    id in s.payouts && id in s'.payouts && id in s.trail && id in s'.trail && id in s.notices && id in s'.notices
    && s'.payouts[id] == s.payouts[id] && s'.trail[id] == s.trail[id] && s'.notices[id] == s.notices[id]
  }

  lemma CarriedOnlyAt(s: Store, p: Payout, d: Decision, now: Time, s': Store, r: Result<Payout, PayoutError>)
    requires Tidy(s) && p.facts.id in s.payouts && CarriedOut(s, p, d, now, s', r)
    ensures OnlyAt(s, s', p.facts.id)
  {
    hide MovedRow, Blocked, CanTransitionTo;
  }

  lemma ReconcilingOnlyAt(s: Store, p: Payout, x: Iris.Exchange, now: Time)
    requires Tidy(s) && IsCopy(s, p)
    ensures OnlyAt(s, Reconciling(s, p, x, now).0, p.facts.id)
  {
    ReconcilingDecides(s, p, x, now);
    SubmittingDecides(s, p.facts.id, x, now);
    var (s', r) := Reconciling(s, p, x, now);
    assert s' == s ==> OnlyAt(s, s', p.facts.id);
    hide CarriedOut, OnlyAt, Reconciling, Submitting, Sent, Polled, Tidy;
    forall q: Payout, d | q.facts.id == p.facts.id && CarriedOut(s, q, d, now, s', r) ensures OnlyAt(s, s', p.facts.id) {
      CarriedOnlyAt(s, q, d, now, s', r);
    }
  }

  lemma SameOn(s: Store, s1: Store, s2: Store, id: string, other: string)
    requires SameAt(s, s1, id) && OnlyAt(s1, s2, other) && id != other
    ensures SameAt(s, s2, id)
  {
  }

  lemma AllButLast(s: Store, claimed: seq<Payout>)
    requires UpToDate(s, claimed) && claimed != []
    ensures var n := |claimed| - 1;
      && UpToDate(s, claimed[..n]) && claimed[n].facts.id in s.payouts && s.payouts[claimed[n].facts.id] == claimed[n]
      && (forall i :: 0 <= i < n ==> claimed[..n][i].facts.id != claimed[n].facts.id)
  {
  }

  /** What is not among the claimed payouts is not touched. */
  lemma {:induction false} BatchLeavesOthers(s: Store, claimed: seq<Payout>, answers: seq<Iris.Exchange>, now: Time, id: string)
    requires Tidy(s) && |answers| == |claimed| && UpToDate(s, claimed) && id in s.payouts
    requires forall i :: 0 <= i < |claimed| ==> claimed[i].facts.id != id
    ensures SameAt(s, ReconcilingAll(s, claimed, answers, now).0, id)
    decreases |claimed|, 1
  {
    assert id in s.trail && id in s.notices;
    if claimed != [] {
      var n := |claimed| - 1;
      AllButLast(s, claimed);
      hide Reconciling, Tidy, UpToDate, OnlyAt, SameAt, CountsAsError;
      BatchLeavesOthers(s, claimed[..n], answers[..n], now, id);
      LastIsCurrent(s, claimed, answers, now);
      var before := ReconcilingAll(s, claimed[..n], answers[..n], now).0;
      ReconcilingOnlyAt(before, claimed[n], answers[n], now);
      SameOn(s, before, Reconciling(before, claimed[n], answers[n], now).0, id, claimed[n].facts.id);
    }
  }

  lemma StillCopy(s: Store, s1: Store, p: Payout)
    requires p.facts.id in s.payouts && s.payouts[p.facts.id] == p && SameAt(s, s1, p.facts.id)
    ensures IsCopy(s1, p) && s1.payouts[p.facts.id] == p
  {
  }

  lemma LastIsCurrent(s: Store, claimed: seq<Payout>, answers: seq<Iris.Exchange>, now: Time)
    requires Tidy(s) && |answers| == |claimed| > 0 && UpToDate(s, claimed)
    ensures var n := |claimed| - 1; var before := ReconcilingAll(s, claimed[..n], answers[..n], now).0;
      SameAt(s, before, claimed[n].facts.id) && IsCopy(before, claimed[n])
    decreases |claimed|, 0
  {
    var n := |claimed| - 1;
    hide *;
    AllButLast(s, claimed);
    BatchLeavesOthers(s, claimed[..n], answers[..n], now, claimed[n].facts.id);
    StillCopy(s, ReconcilingAll(s, claimed[..n], answers[..n], now).0, claimed[n]);
  }

  /** A batch reconciles each claimed payout once, from a copy that is still up to date, with its own answer,
      and what came of it stands at the end. */
  lemma {:induction false} BatchReconcilesEach(s: Store, claimed: seq<Payout>, answers: seq<Iris.Exchange>, now: Time, i: nat)
    requires Tidy(s) && |answers| == |claimed| && UpToDate(s, claimed) && i < |claimed|
    ensures var id := claimed[i].facts.id; var before := ReconcilingAll(s, claimed[..i], answers[..i], now).0;
      && SameAt(s, before, id)
      && SameAt(Reconciling(before, claimed[i], answers[i], now).0, ReconcilingAll(s, claimed, answers, now).0, id)
    decreases |claimed|
  {
    var n := |claimed| - 1;
    AllButLast(s, claimed);
    Prefixes(claimed, answers, i);
    LastIsCurrent(s, claimed, answers, now);
    var before := ReconcilingAll(s, claimed[..n], answers[..n], now).0;
    ReconcilingOnlyAt(before, claimed[n], answers[n], now);
    LastComesOf(s, claimed, answers, now);
    hide *;
    if i < n {
      BatchReconcilesEach(s, claimed[..n], answers[..n], now, i);
      SameOn(Reconciling(ReconcilingAll(s, claimed[..i], answers[..i], now).0, claimed[i], answers[i], now).0, before,
             Reconciling(before, claimed[n], answers[n], now).0, claimed[i].facts.id, claimed[n].facts.id);
    } else {
      assert claimed[..n] == claimed[..i] && answers[..n] == answers[..i];
    }
  }

  lemma LastComesOf(s: Store, claimed: seq<Payout>, answers: seq<Iris.Exchange>, now: Time)
    requires Tidy(s) && |answers| == |claimed| > 0 && UpToDate(s, claimed)
    ensures var n, final := |claimed| - 1, ReconcilingAll(s, claimed, answers, now).0;
      && final == Reconciling(ReconcilingAll(s, claimed[..n], answers[..n], now).0, claimed[n], answers[n], now).0
      && SameAt(final, final, claimed[n].facts.id)
  {
    var n := |claimed| - 1;
    var before := ReconcilingAll(s, claimed[..n], answers[..n], now).0;
    assert claimed[..n + 1] == claimed && answers[..n + 1] == answers;
    hide *;
    LastIsCurrent(s, claimed, answers, now);
    ReconcilingOnlyAt(before, claimed[n], answers[n], now);
    ReconcilingOneMore(s, claimed, answers, n, now);
    KeptIn(before, Reconciling(before, claimed[n], answers[n], now).0, claimed[n].facts.id);
  }

  lemma KeptIn(s: Store, s': Store, id: string)
    requires OnlyAt(s, s', id) && id in s.payouts && Tidy(s')
    ensures SameAt(s', s', id)
  {
  }

  /** All are counted but the ones that ended in an error, an unknown outcome not being one. */
  lemma BatchCounts(s: Store, claimed: seq<Payout>, answers: seq<Iris.Exchange>, now: Time, i: nat)
    requires Tidy(s) && |answers| == |claimed| && i < |claimed|
    ensures var (before, n) := ReconcilingAll(s, claimed[..i], answers[..i], now);
      var (after, r) := Reconciling(before, claimed[i], answers[i], now);
      ReconcilingAll(s, claimed[..i + 1], answers[..i + 1], now) == (after, if r.Ok? || r.error == UnknownOutcome then n + 1 else n)
  {
    ReconcilingOneMore(s, claimed, answers, i, now);
    hide Reconciling, ReconcilingAll, Tidy;
  }

  lemma Prefixes(claimed: seq<Payout>, answers: seq<Iris.Exchange>, i: nat)
    requires |answers| == |claimed| && i < |claimed|
    ensures var n := |claimed| - 1;
      i < n ==> claimed[..n][..i] == claimed[..i] && answers[..n][..i] == answers[..i]
                && claimed[..n][i] == claimed[i] && answers[..n][i] == answers[i] && claimed[i].facts.id == claimed[..n][i].facts.id
  {
  }
}
