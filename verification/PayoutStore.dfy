/** Payout rows, their history, and the repository that updates them. */
module PayoutStore {
  import opened Wrappers
  import opened PayoutStatuses
  import Iris

  /** Seconds on the database clock. */
  type Time = int

  const HOUR: Time := 3600

  datatype Destination = Destination(name: string, account: string, bank: string, email: string)

  /** What is fixed when a payout is requested and never written again. */
  datatype Facts = Facts(
    id: string, applicationId: string, accountId: string, reference: string, key: string,
    destination: Destination, amount: int, currency: string, notes: string,
    requestedBy: Option<string>, createdAt: Time)

  datatype Payout = Payout(
    facts: Facts, status: PayoutStatus, gatewayStatus: string, referenceNo: Option<string>,
    failure: Option<Iris.CallError>,
    approvedBy: Option<string>, approvedAt: Option<Time>,
    rejectedBy: Option<string>, rejectedAt: Option<Time>, rejectReason: string,
    submittedAt: Option<Time>, completedAt: Option<Time>, failedAt: Option<Time>,
    lastSyncedAt: Option<Time>, idempotencyExpiresAt: Option<Time>, updatedAt: Time)

  predicate NeedsApproval(p: Payout) { p.status == Requested }

  predicate Submittable(p: Payout) { p.status == Approved }

  /** Whether asking again under the original key is still a question about the first request. */
  predicate Recoverable(p: Payout, now: Time) {
    p.status == Unresolved && p.idempotencyExpiresAt.Some? && now < p.idempotencyExpiresAt.value
  }

  predicate Stranded(p: Payout, now: Time) {
    p.status == Unresolved && !Recoverable(p, now)
  }

  datatype StateUpdate = StateUpdate(
    status: PayoutStatus, gatewayStatus: string, referenceNo: string,
    failure: Option<Iris.CallError>,
    approvedBy: string, rejectedBy: string, rejectReason: string,
    idempotencyExpiresAt: Option<Time>, markSynced: bool)

  /** An update that only changes the status. */
  function To(status: PayoutStatus): StateUpdate {
    StateUpdate(status, "", "", None, "", "", "", None, false)
  }

  datatype Actor = ByApplication | ByAdmin(adminId: string) | ByGateway

  datatype Reason =
    | NoReason | Given(text: string)
    | OutcomeWasUnknown | RefusedByGateway | ResolvedUnderKey | Reconciled

  datatype Transition = Transition(
    from: Option<PayoutStatus>, to: PayoutStatus, actor: Actor, reason: Reason, at: Time)

  datatype PayoutEvent =
    | PayoutRequested | PayoutApproved | PayoutRejected | PayoutSubmitted | PayoutCompleted | PayoutFailed

  datatype PayoutError =
    | InvalidAmount | MissingReference | PayoutsDisabled | ExceedsMaxAmount | ExceedsDailyLimit
    | BeneficiaryNotFound | BeneficiaryDisabled | DuplicatePayoutId | PayoutNotFound
    | NotPending | SelfApproval | NotAwaitingSubmission | StaleTransition | ConstraintViolation
    | UnknownOutcome | GatewayFailure

  /** The tables: payouts by id with the order of insertion, the history and the announced events
      of each payout. */
  datatype Store = Store(
    payouts: map<string, Payout>, order: seq<string>,
    trail: map<string, seq<Transition>>, notices: map<string, seq<PayoutEvent>>)

  function History(rows: seq<Transition>): (path: seq<PayoutStatus>)
    ensures |path| == |rows|
    ensures forall i :: 0 <= i < |rows| ==> path[i] == rows[i].to
  {
    seq(|rows|, i requires 0 <= i < |rows| => rows[i].to)
  }

  // ---- one row under an update ----

  function Keep(given: string, kept: string): string {
    if given == "" then kept else given
  }

  function KeepSome(given: string, kept: Option<string>): Option<string> {
    if given == "" then kept else Some(given)
  }

  /** A timestamp is taken once, on first entering its status. */
  function Stamp(entered: bool, at: Option<Time>, now: Time): Option<Time> {
    if entered && at.None? then Some(now) else at
  }

  function Advance(p: Payout, u: StateUpdate, now: Time): Payout {
    p.(status := u.status,
       gatewayStatus := Keep(u.gatewayStatus, p.gatewayStatus),
       referenceNo := KeepSome(u.referenceNo, p.referenceNo),
       failure := if u.failure.Some? then u.failure else p.failure,
       approvedBy := KeepSome(u.approvedBy, p.approvedBy),
       approvedAt := Stamp(u.status == Approved, p.approvedAt, now),
       rejectedBy := KeepSome(u.rejectedBy, p.rejectedBy),
       rejectedAt := Stamp(u.status == Rejected, p.rejectedAt, now),
       rejectReason := Keep(u.rejectReason, p.rejectReason),
       submittedAt := Stamp(u.status == Submitted, p.submittedAt, now),
       completedAt := Stamp(u.status == Completed, p.completedAt, now),
       failedAt := Stamp(u.status == Failed, p.failedAt, now),
       idempotencyExpiresAt := if u.idempotencyExpiresAt.Some? then u.idempotencyExpiresAt else p.idempotencyExpiresAt,
       lastSyncedAt := if u.markSynced then Some(now) else p.lastSyncedAt,
       updatedAt := now)
  }

  /** The table's check constraints: dual control, and never both outcomes. */
  predicate RowAllowed(p: Payout) {
    && !(p.approvedBy.Some? && p.facts.requestedBy.Some? && p.approvedBy == p.facts.requestedBy)
    && !(p.approvedAt.Some? && p.rejectedAt.Some?)
  }

  /** The unique index on gateway references within an account. */
  predicate ReferenceTaken(payouts: map<string, Payout>, p: Payout) {
    p.referenceNo.Some? &&
    exists id :: id in payouts && id != p.facts.id
      && payouts[id].facts.accountId == p.facts.accountId && payouts[id].referenceNo == p.referenceNo
  }

  /** The conditional UPDATE: it matches only a row whose status may move to the new one. */
  function UpdatedRow(s: Store, id: string, u: StateUpdate, now: Time): (r: Result<Payout, PayoutError>)
    ensures r.Ok? ==> id in s.payouts && CanTransitionTo(s.payouts[id].status, u.status)
    ensures r.Ok? ==> r.value.facts == s.payouts[id].facts && r.value.status == u.status
  {
    if id !in s.payouts || !CanTransitionTo(s.payouts[id].status, u.status) then Err(StaleTransition)
    else
      var q := Advance(s.payouts[id], u, now);
      if RowAllowed(q) && !ReferenceTaken(s.payouts, q) then Ok(q) else Err(ConstraintViolation)
  }

  // ---- sums over the table ----

  predicate Counts(p: Payout, applicationId: string, lo: Time, hi: Option<Time>) {
    p.facts.applicationId == applicationId && lo <= p.facts.createdAt
    && (hi.Some? ==> p.facts.createdAt <= hi.value)
    && p.status != Failed && p.status != Rejected
  }

  /** Total of an application's payouts created from `lo` on, and up to `hi` when one is given, that
      are neither failed nor rejected. */
  function Committed(payouts: map<string, Payout>, order: seq<string>, applicationId: string, lo: Time, hi: Option<Time>): int
    requires forall id :: id in order ==> id in payouts
  {
    if order == [] then 0
    else
      var p := payouts[order[|order| - 1]];
      Committed(payouts, order[..|order| - 1], applicationId, lo, hi)
      + (if Counts(p, applicationId, lo, hi) then p.facts.amount else 0)
  }

  /** The payouts that count, and what a list of payouts comes to. */
  function Counting(payouts: map<string, Payout>, order: seq<string>, applicationId: string, lo: Time, hi: Option<Time>): seq<string>
    requires forall id :: id in order ==> id in payouts
  {
    if order == [] then []
    else
      var last := order[|order| - 1];
      Counting(payouts, order[..|order| - 1], applicationId, lo, hi)
      + (if Counts(payouts[last], applicationId, lo, hi) then [last] else [])
  }

  function Amounts(payouts: map<string, Payout>, ids: seq<string>): int
    requires forall id :: id in ids ==> id in payouts
  {
    if ids == [] then 0
    else Amounts(payouts, ids[..|ids| - 1]) + payouts[ids[|ids| - 1]].facts.amount
  }

  lemma {:induction false} CountingIsExact(payouts: map<string, Payout>, order: seq<string>, applicationId: string, lo: Time, hi: Option<Time>)
    requires forall id :: id in order ==> id in payouts
    requires forall i, j :: 0 <= i < j < |order| ==> order[i] != order[j]
    ensures var ids := Counting(payouts, order, applicationId, lo, hi);
      && (forall id :: id in ids <==> id in order && Counts(payouts[id], applicationId, lo, hi))
      && forall i, j :: 0 <= i < j < |ids| ==> ids[i] != ids[j]
  {
    hide Counts;
    if order != [] {
      var n := |order| - 1;
      CountingIsExact(payouts, order[..n], applicationId, lo, hi);
      assert order == order[..n] + [order[n]] && order[n] !in order[..n];
    }
  }

  lemma AmountsAppend(payouts: map<string, Payout>, ids: seq<string>, id: string)
    requires (forall k :: k in ids ==> k in payouts) && id in payouts
    ensures Amounts(payouts, ids + [id]) == Amounts(payouts, ids) + payouts[id].facts.amount
  {
    assert (ids + [id])[..|ids|] == ids;
  }

  /** The committed total is the amounts of exactly the payouts that count, each once. */
  lemma {:induction false} CommittedIsTheSum(payouts: map<string, Payout>, order: seq<string>, applicationId: string, lo: Time, hi: Option<Time>)
    requires forall id :: id in order ==> id in payouts
    requires forall i, j :: 0 <= i < j < |order| ==> order[i] != order[j]
    ensures var ids := Counting(payouts, order, applicationId, lo, hi);
      && (forall id :: id in ids <==> id in order && Counts(payouts[id], applicationId, lo, hi))
      && (forall i, j :: 0 <= i < j < |ids| ==> ids[i] != ids[j])
      && Committed(payouts, order, applicationId, lo, hi) == Amounts(payouts, ids)
  {
    CountingIsExact(payouts, order, applicationId, lo, hi);
    SumOfCounting(payouts, order, applicationId, lo, hi);
    hide Counting, Counts, Committed, Amounts;
  }

  lemma {:induction false} SumOfCounting(payouts: map<string, Payout>, order: seq<string>, applicationId: string, lo: Time, hi: Option<Time>)
    requires forall id :: id in order ==> id in payouts
    ensures forall id :: id in Counting(payouts, order, applicationId, lo, hi) ==> id in payouts
    ensures Committed(payouts, order, applicationId, lo, hi) == Amounts(payouts, Counting(payouts, order, applicationId, lo, hi))
  {
    hide Counts, Amounts;
    if order == [] {
      NoAmounts(payouts);
    } else {
      var shorter, last := order[..|order| - 1], order[|order| - 1];
      assert last in order;
      SumOfCounting(payouts, shorter, applicationId, lo, hi);
      var before := Counting(payouts, shorter, applicationId, lo, hi);
      if Counts(payouts[last], applicationId, lo, hi) {
        AmountsAppend(payouts, before, last);
      } else {
        assert before + [] == before;
      }
    }
  }

  lemma NoAmounts(payouts: map<string, Payout>)
    ensures Amounts(payouts, []) == 0
  {
  }

  function FindReference(payouts: map<string, Payout>, order: seq<string>, applicationId: string, reference: string)
    : (r: Option<Payout>)
    requires forall id :: id in order ==> id in payouts
    ensures r.Some? ==>
      (r.value.facts.applicationId == applicationId && r.value.facts.reference == reference
       && exists id :: id in order && payouts[id] == r.value)
    ensures r.None? ==> forall id :: id in order ==>
      !(payouts[id].facts.applicationId == applicationId && payouts[id].facts.reference == reference)
  {
    if order == [] then None
    else
      var p := payouts[order[|order| - 1]];
      if p.facts.applicationId == applicationId && p.facts.reference == reference then Some(p)
      else FindReference(payouts, order[..|order| - 1], applicationId, reference)
  }

  // ---- table consistency ----

  /** The order lists every payout once, and every payout has its history and events. */
  ghost predicate Tidy(s: Store) {
    && (forall id :: id in s.order <==> id in s.payouts)
    && (forall i, j :: 0 <= i < j < |s.order| ==> s.order[i] != s.order[j])
    && s.trail.Keys == s.payouts.Keys && s.notices.Keys == s.payouts.Keys
    && (forall id :: id in s.payouts ==> s.payouts[id].facts.id == id)
  }

  /** The three tables with one payout's row, history and events replaced. */
  function Put(s: Store, id: string, row: Payout, rows: seq<Transition>, events: seq<PayoutEvent>): (s': Store)
    requires Tidy(s) && id in s.payouts && row.facts == s.payouts[id].facts
    ensures Tidy(s')
  {
    s.(payouts := s.payouts[id := row], trail := s.trail[id := rows], notices := s.notices[id := events])
  }

  /** The repository.  Each method is one SQL statement. */
  class Repository {
    var payouts: map<string, Payout>
    var order: seq<string>
    var trail: map<string, seq<Transition>>
    var notices: map<string, seq<PayoutEvent>>

    ghost function State(): Store
      reads this
    {
      Store(payouts, order, trail, notices)
    }

    ghost predicate Valid()
      reads this
    {
      Tidy(State())
    }

    constructor ()
      ensures Valid() && State() == Store(map[], [], map[], map[])
    {
      payouts, order, trail, notices := map[], [], map[], map[];
    }

    method Get(id: string) returns (r: Result<Payout, PayoutError>)
      ensures r == if id in payouts then Ok(payouts[id]) else Err(PayoutNotFound)
    {
      return if id in payouts then Ok(payouts[id]) else Err(PayoutNotFound);
    }

    /** INSERT, refused by the unique index when the application already used the reference. */
    method Create(p: Payout) returns (r: Result<Payout, PayoutError>)
      requires Valid() && p.facts.id !in payouts
      modifies this
      ensures Valid()
      ensures r == if FindReference(old(payouts), old(order), p.facts.applicationId, p.facts.reference).Some?
                   then Err(DuplicatePayoutId) else Ok(p)
      ensures r.Err? ==> State() == old(State())
      ensures r.Ok? ==> State() == Store(old(payouts)[p.facts.id := p], old(order) + [p.facts.id],
                                         old(trail)[p.facts.id := []], old(notices)[p.facts.id := []])
    {
      hide FindReference;
      if FindReference(payouts, order, p.facts.applicationId, p.facts.reference).Some? {
        return Err(DuplicatePayoutId);
      }
      var id := p.facts.id;
      payouts := payouts[id := p];
      order := order + [id];
      trail := trail[id := []];
      notices := notices[id := []];
      return Ok(p);
    }

    method ApplyState(id: string, u: StateUpdate, now: Time) returns (r: Result<Payout, PayoutError>)
      modifies this`payouts
      ensures r == UpdatedRow(old(State()), id, u, now)
      ensures payouts == if r.Ok? then old(payouts)[id := r.value] else old(payouts)
    {
      var allowed := PredecessorsOf(u.status);
      if id !in payouts || payouts[id].status !in allowed {
        return Err(StaleTransition);
      }
      var q := Advance(payouts[id], u, now);
      if !RowAllowed(q) || ReferenceTaken(payouts, q) {
        return Err(ConstraintViolation);
      }
      payouts := payouts[id := q];
      return Ok(q);
    }

    method TouchSynced(id: string, now: Time)
      modifies this`payouts
      ensures payouts == if id in old(payouts) then old(payouts)[id := old(payouts)[id].(lastSyncedAt := Some(now))]
                         else old(payouts)
    {
      if id in payouts {
        payouts := payouts[id := payouts[id].(lastSyncedAt := Some(now))];
      }
    }

    method RecordTransition(id: string, t: Transition)
      requires id in trail
      modifies this`trail
      ensures trail == old(trail)[id := old(trail)[id] + [t]]
      ensures History(trail[id]) == History(old(trail)[id]) + [t.to]
      ensures trail.Keys == old(trail).Keys && forall k :: k in trail && k != id ==> trail[k] == old(trail)[k]
    {
      trail := trail[id := trail[id] + [t]];
    }

    method Publish(id: string, events: seq<PayoutEvent>)
      requires id in notices
      modifies this`notices
      ensures notices == old(notices)[id := old(notices)[id] + events]
    {
      notices := notices[id := notices[id] + events];
    }

    /** The sum the query takes, row by row. */
    method SentToday(applicationId: string, now: Time) returns (total: int)
      requires Valid()
      ensures total == Committed(payouts, order, applicationId, now - 24 * HOUR, None)
      ensures forall id :: id in Counting(payouts, order, applicationId, now - 24 * HOUR, None) <==>
        (id in payouts && payouts[id].facts.applicationId == applicationId && payouts[id].facts.createdAt >= now - 24 * HOUR
         && payouts[id].status != Failed && payouts[id].status != Rejected)
      ensures total == Amounts(payouts, Counting(payouts, order, applicationId, now - 24 * HOUR, None))
    {
      TodaysSum(State(), applicationId, now - 24 * HOUR);
      hide Tidy, Counting, Amounts;
      total := 0;
      for i := 0 to |order|
        invariant total == Committed(payouts, order[..i], applicationId, now - 24 * HOUR, None)
      {
        assert order[..i + 1][..i] == order[..i] && order[i] in order;
        var p := payouts[order[i]];
        if p.facts.applicationId == applicationId && p.facts.createdAt >= now - 24 * HOUR
           && p.status != Failed && p.status != Rejected {
          total := total + p.facts.amount;
        }
      }
      assert order[..|order|] == order;
    }
  }

  lemma TodaysSum(s: Store, applicationId: string, since: Time)
    requires Tidy(s)
    ensures (forall id :: id in s.order ==> id in s.payouts)
    ensures var ids := Counting(s.payouts, s.order, applicationId, since, None);
      && (forall id :: id in ids <==>
            (id in s.payouts && s.payouts[id].facts.applicationId == applicationId && s.payouts[id].facts.createdAt >= since
             && s.payouts[id].status != Failed && s.payouts[id].status != Rejected))
      && Committed(s.payouts, s.order, applicationId, since, None) == Amounts(s.payouts, ids)
  {
    CommittedIsTheSum(s.payouts, s.order, applicationId, since, None);
    hide Counting, Committed, Amounts;
  }
}
