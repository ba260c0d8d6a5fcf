/** The payout service: who may ask for a transfer, what each outcome of a gateway call means,
    and how in-flight payouts are settled. */
module PayoutService {
  import opened Wrappers
  import opened PayoutStatuses
  import opened PayoutStore
  import GoStrings
  import Iris

  /** How long a payout may be re-sent under its key, counted from its creation. */
  const IDEMPOTENCY_WINDOW: Time := 20 * HOUR

  datatype Limits = Limits(
    enabled: bool, requiresApproval: bool, maxAmount: Option<int>, dailyLimit: Option<int>)

  datatype Beneficiary = Beneficiary(destination: Destination, disabled: bool)

  datatype RequestInput = RequestInput(
    applicationId: string, accountId: string, reference: string,
    amount: int, currency: string, notes: string, requestedBy: string)

  // ---- admission ----

  datatype Verdict =
    | Refuse(error: PayoutError)
    | Original(payout: Payout)
    | Admit(destination: Destination, status: PayoutStatus)

  /** The rules of Request in their order: amount, permission, the per-payout ceiling, an earlier
      request under the same reference, the rolling limit, the destination. */
  function Judge(s: Store, limits: Option<Limits>, input: RequestInput, beneficiary: Option<Beneficiary>, now: Time): Verdict
    requires Tidy(s)
  {
    if input.amount <= 0 then Refuse(InvalidAmount)
    else if input.reference == "" then Refuse(MissingReference)
    else if limits.None? || !limits.value.enabled then Refuse(PayoutsDisabled)
    else if limits.value.maxAmount.Some? && input.amount > limits.value.maxAmount.value then Refuse(ExceedsMaxAmount)
    else
      var existing := FindReference(s.payouts, s.order, input.applicationId, input.reference);
      if existing.Some? then Original(existing.value)
      else if limits.value.dailyLimit.Some?
        && Committed(s.payouts, s.order, input.applicationId, now - 24 * HOUR, None) + input.amount > limits.value.dailyLimit.value
      then Refuse(ExceedsDailyLimit)
      else if beneficiary.None? then Refuse(BeneficiaryNotFound)
      else if beneficiary.value.disabled then Refuse(BeneficiaryDisabled)
      else Admit(beneficiary.value.destination, if limits.value.requiresApproval then Requested else Approved)
  }

  function NewPayout(id: string, input: RequestInput, destination: Destination, status: PayoutStatus, now: Time): (p: Payout)
    ensures p.facts.id == id && p.status == status
  {
    Payout(
      Facts(id, input.applicationId, input.accountId, input.reference, id, destination, input.amount,
            GoStrings.ToUpper(input.currency), input.notes,
            if input.requestedBy == "" then None else Some(input.requestedBy), now),
      status, "", None, None, None, None, None, None, "", None, None, None, None, None, now)
  }

  function FirstRow(p: Payout): Transition {
    Transition(None, p.status,
               if p.facts.requestedBy.Some? then ByAdmin(p.facts.requestedBy.value) else ByApplication,
               NoReason, p.facts.createdAt)
  }

  function FirstNotices(status: PayoutStatus): seq<PayoutEvent> {
    [PayoutRequested] + if status == Approved then [PayoutApproved] else []
  }

  /** The inserting transaction. */
  function Inserted(s: Store, p: Payout): (r: (Store, Result<Payout, PayoutError>))
    requires Tidy(s) && p.facts.id !in s.payouts
    ensures Tidy(r.0)
  {
    if FindReference(s.payouts, s.order, p.facts.applicationId, p.facts.reference).Some? then (s, Err(DuplicatePayoutId))
    else (Store(s.payouts[p.facts.id := p], s.order + [p.facts.id],
                s.trail[p.facts.id := [FirstRow(p)]], s.notices[p.facts.id := FirstNotices(p.status)]),
          Ok(p))
  }

  /** Request as one atomic step: judged and inserted against the same table. */
  function Requesting(s: Store, limits: Option<Limits>, input: RequestInput, beneficiary: Option<Beneficiary>,
                      id: string, now: Time): (r: (Store, Result<Payout, PayoutError>))
    requires Tidy(s) && id !in s.payouts
    ensures Tidy(r.0)
  {
    match Judge(s, limits, input, beneficiary, now)
    case Refuse(e) => (s, Err(e))
    case Original(p) => (s, Ok(p))
    case Admit(destination, status) => Inserted(s, NewPayout(id, input, destination, status, now))
  }

  // ---- moving a payout ----

  function EventFor(status: PayoutStatus): Option<PayoutEvent> {
    match status
    case Approved => Some(PayoutApproved)
    case Rejected => Some(PayoutRejected)
    case Submitted => Some(PayoutSubmitted)
    case Completed => Some(PayoutCompleted)
    case Failed => Some(PayoutFailed)
    case Requested => None
    case Unresolved => None
  }

  function Announcement(status: PayoutStatus): seq<PayoutEvent> {
    if EventFor(status).Some? then [EventFor(status).value] else []
  }

  /** A state change with its history row, in one transaction, and its event afterwards.  `p` is the
      caller's copy of the row, which may be out of date: the row written is the stored one, but the
      status recorded as left is the copy's. */
  function Moved(s: Store, p: Payout, u: StateUpdate, actor: Actor, reason: Reason, now: Time)
    : (r: (Store, Result<Payout, PayoutError>))
    requires Tidy(s)
    ensures Tidy(r.0)
  {
    var id := p.facts.id;
    match UpdatedRow(s, id, u, now)
    case Err(e) => (s, Err(e))
    case Ok(q) =>
      (Put(s, id, q, s.trail[id] + [Transition(Some(p.status), u.status, actor, reason, now)],
           s.notices[id] + Announcement(u.status)),
       Ok(q))
  }

  function Touched(s: Store, id: string, now: Time): (s': Store)
    requires Tidy(s)
    ensures Tidy(s')
  {
    if id in s.payouts then Put(s, id, s.payouts[id].(lastSyncedAt := Some(now)), s.trail[id], s.notices[id]) else s
  }

  function UnknownUpdate(p: Payout): StateUpdate {
    To(Unresolved).(failure := Some(Iris.OutcomeUnknown),
                    idempotencyExpiresAt := Some(p.facts.createdAt + IDEMPOTENCY_WINDOW))
  }

  function ResultUpdate(result: Iris.PayoutResult): StateUpdate {
    To(result.status).(gatewayStatus := result.word, referenceNo := result.reference, markSynced := true)
  }

  function Approving(s: Store, p: Payout, admin: string, now: Time): (r: (Store, Result<Payout, PayoutError>))
    requires Tidy(s)
    ensures Tidy(r.0)
  {
    if !NeedsApproval(p) then (s, Err(NotPending))
    else if p.facts.requestedBy == Some(admin) then (s, Err(SelfApproval))
    else Moved(s, p, To(Approved).(approvedBy := admin), ByAdmin(admin), NoReason, now)
  }

  function Rejecting(s: Store, p: Payout, admin: string, reason: string, now: Time): (r: (Store, Result<Payout, PayoutError>))
    requires Tidy(s)
    ensures Tidy(r.0)
  {
    if !NeedsApproval(p) then (s, Err(NotPending))
    else Moved(s, p, To(Rejected).(rejectedBy := admin, rejectReason := reason), ByAdmin(admin), Given(reason), now)
  }

  /** What a failed create call does to the payout. */
  function FailureRecorded(s: Store, p: Payout, cause: Iris.CallError, now: Time): (r: (Store, Result<Payout, PayoutError>))
    requires Tidy(s)
    ensures Tidy(r.0)
  {
    if cause == Iris.OutcomeUnknown then
      var (s', moved) := Moved(s, p, UnknownUpdate(p), ByGateway, OutcomeWasUnknown, now);
      (s', if moved.Ok? then Err(UnknownOutcome) else moved)
    else
      Moved(s, p, To(Failed).(failure := Some(cause)), ByGateway, RefusedByGateway, now)
  }

  /** What a gateway result does to the payout: nothing but a sync mark when the caller's copy has
      no move to the reported status. */
  function ResultApplied(s: Store, p: Payout, result: Iris.PayoutResult, reason: Reason, now: Time)
    : (r: (Store, Result<Payout, PayoutError>))
    requires Tidy(s)
    ensures Tidy(r.0)
  {
    if !CanTransitionTo(p.status, result.status) then (Touched(s, p.facts.id, now), Ok(p))
    else
      Moved(s, p, ResultUpdate(result), ByGateway, reason, now)
  }

  /** The second half of Submit and of resolveUnknown: the create call has come back. */
  function CreateRecorded(s: Store, p: Payout, outcome: Result<Iris.PayoutResult, Iris.CallError>, now: Time)
    : (r: (Store, Result<Payout, PayoutError>))
    requires Tidy(s)
    ensures Tidy(r.0)
  {
    match outcome
    case Ok(result) =>
      ResultApplied(s, p, result, if p.status == Unresolved then ResolvedUnderKey else NoReason, now)
    case Err(cause) =>
      if p.status == Unresolved && cause == Iris.OutcomeUnknown then (Touched(s, p.facts.id, now), Ok(p))
      else FailureRecorded(s, p, cause, now)
  }

  /** The second half of polling a submitted payout. */
  function PollRecorded(s: Store, p: Payout, outcome: Result<Iris.PayoutResult, Iris.CallError>, now: Time)
    : (r: (Store, Result<Payout, PayoutError>))
    requires Tidy(s)
    ensures Tidy(r.0)
  {
    match outcome
    case Ok(result) => ResultApplied(s, p, result, Reconciled, now)
    case Err(cause) => if cause == Iris.NotFound then (Touched(s, p.facts.id, now), Ok(p)) else (s, Err(GatewayFailure))
  }

  function Submitting(s: Store, id: string, x: Iris.Exchange, now: Time): (r: (Store, Result<Payout, PayoutError>))
    requires Tidy(s)
    ensures Tidy(r.0)
  {
    if id !in s.payouts then (s, Err(PayoutNotFound))
    else if !Submittable(s.payouts[id]) then (s, Err(NotAwaitingSubmission))
    else CreateRecorded(s, s.payouts[id], Iris.CreatePayout(s.payouts[id].facts.currency, x), now)
  }

  /** One payout brought up to date, `x` being the gateway's answer if it is asked. */
  function Reconciling(s: Store, p: Payout, x: Iris.Exchange, now: Time): (r: (Store, Result<Payout, PayoutError>))
    requires Tidy(s)
    ensures Tidy(r.0)
  {
    match p.status
    case Approved => Submitting(s, p.facts.id, x, now)
    case Submitted =>
      if p.referenceNo.None? then (Touched(s, p.facts.id, now), Ok(p))
      else PollRecorded(s, p, Iris.GetPayout(x), now)
    case Unresolved =>
      if !Recoverable(p, now) then (Touched(s, p.facts.id, now), Ok(p))
      else CreateRecorded(s, p, Iris.CreatePayout(p.facts.currency, x), now)
    case _ => (s, Ok(p))
  }

  /** The batch as a fold over the claimed copies, with the number that did not end in an error. */
  function ReconcilingAll(s: Store, claimed: seq<Payout>, answers: seq<Iris.Exchange>, now: Time): (r: (Store, nat))
    requires Tidy(s) && |answers| == |claimed|
    ensures Tidy(r.0)
  {
    if claimed == [] then (s, 0)
    else
      var (s1, n) := ReconcilingAll(s, claimed[..|claimed| - 1], answers[..|claimed| - 1], now);
      var (s2, last) := Reconciling(s1, claimed[|claimed| - 1], answers[|claimed| - 1], now);
      (s2, if CountsAsError(last) then n else n + 1)
  }

  /** Rows the reconciliation query may return: approved ones at once, those at the gateway only
      after they have been left alone for the settling time. */
  predicate Unsettled(p: Payout, settleWait: Time, now: Time) {
    p.status == Approved
    || ((p.status == Submitted || p.status == Unresolved)
        && (p.lastSyncedAt.None? || p.lastSyncedAt.value < now - settleWait)
        && p.updatedAt < now - settleWait)
  }

  /** A claim: at most `limit` distinct unsettled rows, copied as they are when claimed. */
  ghost predicate IsClaim(s: Store, claimed: seq<Payout>, limit: nat, settleWait: Time, now: Time) {
    && |claimed| <= limit
    && (forall p :: p in claimed ==> p.facts.id in s.payouts && s.payouts[p.facts.id] == p && Unsettled(p, settleWait, now))
    && (forall i, j :: 0 <= i < j < |claimed| ==> claimed[i].facts.id != claimed[j].facts.id)
  }

  /** The service over one repository.  The gateway's answers and the clock are arguments; each
      method is proved to take the repository to the state its rule describes. */
  class Service {
    const repo: Repository

    constructor (repo: Repository)
      ensures this.repo == repo
    {
      this.repo := repo;
    }

    method Request(limits: Option<Limits>, input: RequestInput, beneficiary: Option<Beneficiary>, id: string, now: Time)
      returns (r: Result<Payout, PayoutError>)
      requires repo.Valid() && id !in repo.payouts
      modifies repo
      ensures (repo.State(), r) == Requesting(old(repo.State()), limits, input, beneficiary, id, now)
    {
      hide Inserted, NewPayout, Committed, FindReference;
      if input.amount <= 0 {
        return Err(InvalidAmount);
      }
      if input.reference == "" {
        return Err(MissingReference);
      }
      if limits.None? || !limits.value.enabled {
        return Err(PayoutsDisabled);
      }
      if limits.value.maxAmount.Some? && input.amount > limits.value.maxAmount.value {
        return Err(ExceedsMaxAmount);
      }
      var existing := FindReference(repo.payouts, repo.order, input.applicationId, input.reference);
      if existing.Some? {
        return Ok(existing.value);
      }
      if limits.value.dailyLimit.Some? {
        var sent := repo.SentToday(input.applicationId, now);
        if sent + input.amount > limits.value.dailyLimit.value {
          return Err(ExceedsDailyLimit);
        }
      }
      if beneficiary.None? {
        return Err(BeneficiaryNotFound);
      }
      if beneficiary.value.disabled {
        return Err(BeneficiaryDisabled);
      }
      var status := Requested;
      if !limits.value.requiresApproval {
        status := Approved;
      }
      r := Insert(NewPayout(id, input, beneficiary.value.destination, status, now));
    }

    method Insert(p: Payout) returns (r: Result<Payout, PayoutError>)
      requires repo.Valid() && p.facts.id !in repo.payouts
      modifies repo
      ensures (repo.State(), r) == Inserted(old(repo.State()), p)
    {
      hide FindReference, FirstRow, FirstNotices;
      r := repo.Create(p);
      if r.Err? {
        return;
      }
      var id := p.facts.id;
      repo.RecordTransition(id, FirstRow(p));
      repo.Publish(id, FirstNotices(p.status));
      SetTwice(old(repo.trail), id, [], [FirstRow(p)]);
      SetTwice(old(repo.notices), id, [], FirstNotices(p.status));
    }

    static lemma TidyKeys(s: Store)
      requires Tidy(s)
      ensures s.trail.Keys == s.payouts.Keys && s.notices.Keys == s.payouts.Keys
    {
    }

    static lemma SetTwice<V>(m: map<string, seq<V>>, id: string, a: seq<V>, b: seq<V>)
      ensures m[id := a][id := a + b] == m[id := a + b]
      ensures a == [] ==> m[id := a][id := a + b] == m[id := b]
    {
      if a == [] {
        assert a + b == b;
      }
    }

    method Move(p: Payout, u: StateUpdate, actor: Actor, reason: Reason, now: Time)
      returns (r: Result<Payout, PayoutError>)
      requires repo.Valid()
      modifies repo
      ensures (repo.State(), r) == Moved(old(repo.State()), p, u, actor, reason, now)
    {
      hide UpdatedRow, Tidy;
      TidyKeys(repo.State());
      r := repo.ApplyState(p.facts.id, u, now);
      if r.Err? {
        return;
      }
      repo.RecordTransition(p.facts.id, Transition(Some(p.status), u.status, actor, reason, now));
      repo.Publish(p.facts.id, Announcement(u.status));
    }

    method Touch(id: string, now: Time)
      requires repo.Valid()
      modifies repo
      ensures repo.State() == Touched(old(repo.State()), id, now)
    {
      repo.TouchSynced(id, now);
      if id in repo.payouts {
        assert repo.trail == repo.trail[id := repo.trail[id]];
        assert repo.notices == repo.notices[id := repo.notices[id]];
      }
    }

    method Approve(id: string, admin: string, now: Time) returns (r: Result<Payout, PayoutError>)
      requires repo.Valid()
      modifies repo
      ensures id !in old(repo.payouts) ==> repo.State() == old(repo.State()) && r == Err(PayoutNotFound)
      ensures id in old(repo.payouts) ==>
        (repo.State(), r) == Approving(old(repo.State()), old(repo.payouts)[id], admin, now)
    {
      var read := repo.Get(id);
      if read.Err? {
        return read;
      }
      var p := read.value;
      if !NeedsApproval(p) {
        return Err(NotPending);
      }
      if p.facts.requestedBy.Some? && p.facts.requestedBy.value == admin {
        return Err(SelfApproval);
      }
      r := Move(p, To(Approved).(approvedBy := admin), ByAdmin(admin), NoReason, now);
    }

    method Reject(id: string, admin: string, reason: string, now: Time) returns (r: Result<Payout, PayoutError>)
      requires repo.Valid()
      modifies repo
      ensures id !in old(repo.payouts) ==> repo.State() == old(repo.State()) && r == Err(PayoutNotFound)
      ensures id in old(repo.payouts) ==>
        (repo.State(), r) == Rejecting(old(repo.State()), old(repo.payouts)[id], admin, reason, now)
    {
      var read := repo.Get(id);
      if read.Err? {
        return read;
      }
      var p := read.value;
      if !NeedsApproval(p) {
        return Err(NotPending);
      }
      r := Move(p, To(Rejected).(rejectedBy := admin, rejectReason := reason), ByAdmin(admin), Given(reason), now);
    }

    method Submit(id: string, x: Iris.Exchange, now: Time) returns (r: Result<Payout, PayoutError>)
      requires repo.Valid()
      modifies repo
      ensures (repo.State(), r) == Submitting(old(repo.State()), id, x, now)
    {
      var read := repo.Get(id);
      if read.Err? {
        return read;
      }
      if !Submittable(read.value) {
        return Err(NotAwaitingSubmission);
      }
      r := RecordCreate(read.value, Iris.CreatePayout(read.value.facts.currency, x), now);
    }

    method RecordCreate(p: Payout, outcome: Result<Iris.PayoutResult, Iris.CallError>, now: Time)
      returns (r: Result<Payout, PayoutError>)
      requires repo.Valid()
      modifies repo
      ensures (repo.State(), r) == CreateRecorded(old(repo.State()), p, outcome, now)
    {
      if outcome.Ok? {
        var reason := if p.status == Unresolved then ResolvedUnderKey else NoReason;
        r := ApplyGatewayResult(p, outcome.value, reason, now);
      } else if p.status == Unresolved && outcome.error == Iris.OutcomeUnknown {
        Touch(p.facts.id, now);
        r := Ok(p);
      } else {
        r := RecordSubmissionFailure(p, outcome.error, now);
      }
    }

    method RecordSubmissionFailure(p: Payout, cause: Iris.CallError, now: Time) returns (r: Result<Payout, PayoutError>)
      requires repo.Valid()
      modifies repo
      ensures (repo.State(), r) == FailureRecorded(old(repo.State()), p, cause, now)
    {
      if cause == Iris.OutcomeUnknown {
        r := Move(p, UnknownUpdate(p), ByGateway, OutcomeWasUnknown, now);
        if r.Ok? {
          r := Err(UnknownOutcome);
        }
      } else {
        r := Move(p, To(Failed).(failure := Some(cause)), ByGateway, RefusedByGateway, now);
      }
    }

    method ApplyGatewayResult(p: Payout, result: Iris.PayoutResult, reason: Reason, now: Time)
      returns (r: Result<Payout, PayoutError>)
      requires repo.Valid()
      modifies repo
      ensures (repo.State(), r) == ResultApplied(old(repo.State()), p, result, reason, now)
    {
      if !CanTransitionTo(p.status, result.status) {
        Touch(p.facts.id, now);
        return Ok(p);
      }
      r := Move(p, ResultUpdate(result), ByGateway, reason, now);
    }

    method Reconcile(p: Payout, x: Iris.Exchange, now: Time) returns (r: Result<Payout, PayoutError>)
      requires repo.Valid()
      modifies repo
      ensures (repo.State(), r) == Reconciling(old(repo.State()), p, x, now)
    {
      match p.status {
        case Approved =>
          r := Submit(p.facts.id, x, now);
        case Submitted =>
          if p.referenceNo.None? {
            Touch(p.facts.id, now);
            return Ok(p);
          }
          var outcome := Iris.GetPayout(x);
          if outcome.Ok? {
            r := ApplyGatewayResult(p, outcome.value, Reconciled, now);
          } else if outcome.error == Iris.NotFound {
            Touch(p.facts.id, now);
            return Ok(p);
          } else {
            return Err(GatewayFailure);
          }
        case Unresolved =>
          if !Recoverable(p, now) {
            Touch(p.facts.id, now);
            return Ok(p);
          }
          r := RecordCreate(p, Iris.CreatePayout(p.facts.currency, x), now);
        case _ =>
          return Ok(p);
      }
    }

    method ReconcileBatch(claimed: seq<Payout>, answers: seq<Iris.Exchange>, limit: nat, settleWait: Time, now: Time)
      returns (done: nat)
      requires repo.Valid() && |answers| == |claimed|
      requires IsClaim(repo.State(), claimed, limit, settleWait, now)
      modifies repo
      ensures (repo.State(), done) == ReconcilingAll(old(repo.State()), claimed, answers, now)
    {
      hide Tidy, Reconciling, CountsAsError;
      ghost var start := repo.State();
      done := 0;
      for i := 0 to |claimed|
        invariant repo.Valid()
        invariant (repo.State(), done) == ReconcilingAll(start, claimed[..i], answers[..i], now)
      {
        ReconcilingOneMore(start, claimed, answers, i, now);
        var r := Reconcile(claimed[i], answers[i], now);
        if !CountsAsError(r) {
          done := done + 1;
        }
      }
      assert claimed[..|claimed|] == claimed && answers[..|claimed|] == answers;
    }
  }

  /** What the batch logs and does not count; an unknown outcome is not among them. */
  predicate CountsAsError(r: Result<Payout, PayoutError>) {
    r.Err? && r.error != UnknownOutcome
  }

  lemma ReconcilingOneMore(s: Store, claimed: seq<Payout>, answers: seq<Iris.Exchange>, i: nat, now: Time)
    requires Tidy(s) && |answers| == |claimed| && i < |claimed|
    ensures var (s1, n) := ReconcilingAll(s, claimed[..i], answers[..i], now);
      var (s2, last) := Reconciling(s1, claimed[i], answers[i], now);
      ReconcilingAll(s, claimed[..i + 1], answers[..i + 1], now) == (s2, if CountsAsError(last) then n else n + 1)
  {
    hide Tidy, Reconciling, CountsAsError;
    assert claimed[..i + 1][..i] == claimed[..i] && answers[..i + 1][..i] == answers[..i];
  }
}
