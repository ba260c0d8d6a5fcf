/** A payment under the gateway's reports, which come late, twice and in any order. */
module Payments {
  import opened Wrappers
  import opened PaymentStatuses

  /** Seconds. */
  type Time = int

  datatype Payment = Payment(
    id: string, applicationId: string, orderId: string, amount: int, status: Status,
    gatewayStatus: string, transactionId: string, refundedAmount: int,
    paidAt: Option<Time>, canceledAt: Option<Time>, expiredAt: Option<Time>, refundedAt: Option<Time>,
    lastSyncedAt: Option<Time>, updatedAt: Time)

  datatype StateUpdate = StateUpdate(
    status: Status, gatewayStatus: string, transactionId: string, refundedAmount: Option<int>,
    occurredAt: Option<Time>, markSynced: bool)

  datatype PaymentError = StaleTransition

  function Stamp(entered: bool, at: Option<Time>, occurred: Time): Option<Time> {
    if entered && at.None? then Some(occurred) else at
  }

  function Advance(p: Payment, u: StateUpdate, now: Time): Payment {
    var occurred := if u.occurredAt.Some? then u.occurredAt.value else now;
    p.(status := u.status,
       gatewayStatus := u.gatewayStatus,
       transactionId := if u.transactionId == "" then p.transactionId else u.transactionId,
       refundedAmount := if u.refundedAmount.Some? then u.refundedAmount.value else p.refundedAmount,
       paidAt := Stamp(u.status == Paid, p.paidAt, occurred),
       canceledAt := Stamp(u.status == Canceled, p.canceledAt, occurred),
       expiredAt := Stamp(u.status == Expired, p.expiredAt, occurred),
       refundedAt := Stamp(u.status == Refunded || u.status == PartiallyRefunded, p.refundedAt, occurred),
       lastSyncedAt := if u.markSynced then Some(now) else p.lastSyncedAt,
       updatedAt := now)
  }

  /** The guarded UPDATE on one row. */
  function Applied(p: Payment, u: StateUpdate, now: Time): (r: Result<Payment, PaymentError>) {
    if CanTransitionTo(p.status, u.status) then Ok(Advance(p, u, now)) else Err(StaleTransition)
  }

  class Repository {
    var payments: map<string, Payment>

    constructor ()
      ensures payments == map[]
    {
      payments := map[];
    }

    method ApplyState(id: string, u: StateUpdate, now: Time) returns (r: Result<Payment, PaymentError>)
      modifies this
      ensures r == if id in old(payments) then Applied(old(payments)[id], u, now) else Err(StaleTransition)
      ensures payments == if r.Ok? then old(payments)[id := r.value] else old(payments)
    {
      var allowed := PredecessorsOf(u.status);
      if id !in payments || payments[id].status !in allowed {
        return Err(StaleTransition);
      }
      var p := Advance(payments[id], u, now);
      payments := payments[id := p];
      return Ok(p);
    }

    method TouchSynced(id: string, now: Time)
      modifies this
      ensures payments == if id in old(payments) then old(payments)[id := old(payments)[id].(lastSyncedAt := Some(now))]
                          else old(payments)
    {
      if id in payments {
        payments := payments[id := payments[id].(lastSyncedAt := Some(now))];
      }
    }
  }

  // ---- over any run of updates ----

  /** The row after updates, the refused ones having changed nothing. */
  function AfterAll(p: Payment, us: seq<(StateUpdate, Time)>): Payment {
    if us == [] then p
    else
      var q := AfterAll(p, us[..|us| - 1]);
      var (u, now) := us[|us| - 1];
      match Applied(q, u, now)
      case Ok(next) => next
      case Err(_) => q
  }

  predicate Failure(s: Status) { s == Failed || s == Canceled || s == Expired }

  predicate Kept(at: Option<Time>, at': Option<Time>) { at.Some? ==> at' == at }

  /** Entering a status takes its time. */
  predicate Stamped(p: Payment) {
    (p.status == Paid ==> p.paidAt.Some?) && (p.status == Canceled ==> p.canceledAt.Some?)
    && (p.status == Expired ==> p.expiredAt.Some?)
    && (p.status == Refunded || p.status == PartiallyRefunded ==> p.refundedAt.Some?)
  }

  /** A settled payment stays settled, a failed one is never touched again, the rank falls only from a
      full refund back to a partial one, a status is entered with its time, and a time once set never
      changes. */
  lemma {:induction false} NothingIsUndone(p: Payment, us: seq<(StateUpdate, Time)>)
    ensures var q := AfterAll(p, us);
      && (Settled(p.status) ==> Settled(q.status))
      && (Failure(p.status) ==> q == p)
      && (Rank(q.status) < Rank(p.status) ==> p.status == Refunded && q.status == PartiallyRefunded)
      && Kept(p.paidAt, q.paidAt) && Kept(p.canceledAt, q.canceledAt) && Kept(p.expiredAt, q.expiredAt)
      && Kept(p.refundedAt, q.refundedAt) && q.id == p.id && q.amount == p.amount
      && (q.status == p.status || Stamped(q))
  {
    if us != [] {
      NothingIsUndone(p, us[..|us| - 1]);
    }
  }

  // ---- in what order the reports come ----

  /** The status left by reports taken in order, from a new payment. */
  function Final(reports: seq<Status>): Status {
    if reports == [] then Pending
    else
      var s, next := Final(reports[..|reports| - 1]), reports[|reports| - 1];
      if CanTransitionTo(s, next) then next else s
  }

  lemma {:induction false} FinalIsTheRows(p: Payment, us: seq<(StateUpdate, Time)>)
    requires p.status == Pending
    ensures AfterAll(p, us).status == Final(seq(|us|, i requires 0 <= i < |us| => us[i].0.status))
  {
    hide CanTransitionTo;
    if us != [] {
      var n := |us| - 1;
      var reports := seq(|us|, i requires 0 <= i < |us| => us[i].0.status);
      assert reports[..n] == seq(n, i requires 0 <= i < n => us[..n][i].0.status);
      FinalIsTheRows(p, us[..n]);
    }
  }

  /** Reports that cannot both be true of one payment, or of which either may come last. */
  predicate Conflict(a: Status, b: Status) {
    (Failure(a) && Failure(b) && a != b)
    || (Failure(a) && Settled(b)) || (Settled(a) && Failure(b))
    || (a == Refunded && b == PartiallyRefunded) || (a == PartiallyRefunded && b == Refunded)
  }

  ghost predicate Consistent(reports: seq<Status>) {
    forall a, b :: a in reports && b in reports ==> !Conflict(a, b)
  }

  ghost predicate IsHighest(s: Status, reports: seq<Status>) {
    (s == Pending || s in reports) && forall r :: r in reports ==> Rank(r) <= Rank(s)
  }

  lemma OneMoreReport(s: Status, next: Status)
    requires !Conflict(s, next)
    ensures Rank(next) <= Rank(if CanTransitionTo(s, next) then next else s)
    ensures Rank(s) <= Rank(if CanTransitionTo(s, next) then next else s)
  {
  }

  /** Consistent reports, in any order and however often each comes, leave the highest-ranked one. */
  lemma {:induction false} ConsistentReportsLeaveTheHighest(reports: seq<Status>)
    requires Consistent(reports)
    ensures IsHighest(Final(reports), reports)
  {
    if reports != [] {
      var shorter, next := reports[..|reports| - 1], reports[|reports| - 1];
      assert reports == shorter + [next];
      ConsistentReportsLeaveTheHighest(shorter);
      var s := Final(shorter);
      assert !Conflict(s, next) by {
        if s != Pending {
          assert s in reports && next in reports;
        }
      }
      OneMoreReport(s, next);
      hide CanTransitionTo, Rank, Conflict, Final;
      assert Final(reports) == if CanTransitionTo(s, next) then next else s by { FinalStep(shorter, next); }
    }
  }

  lemma FinalStep(reports: seq<Status>, next: Status)
    ensures Final(reports + [next]) == if CanTransitionTo(Final(reports), next) then next else Final(reports)
  {
    assert (reports + [next])[..|reports|] == reports;
  }

  /** The highest of consistent reports is one status. */
  lemma HighestIsOne(reports: seq<Status>, s: Status, t: Status)
    requires Consistent(reports) && IsHighest(s, reports) && IsHighest(t, reports)
    ensures s == t
  {
    assert s == Pending || t == Pending || !Conflict(s, t);
  }

  ghost predicate SameReports(a: seq<Status>, b: seq<Status>) { multiset(a) == multiset(b) }

  /** Whether every order of the same reports leaves the same status. */
  ghost predicate OrderFree(reports: seq<Status>) {
    forall other :: SameReports(reports, other) ==> Final(other) == Final(reports)
  }

  lemma {:induction false} StuckAt(reports: seq<Status>, first: Status)
    requires Failure(first) || Settled(first)
    ensures Failure(first) ==> Final([first] + reports) == first
    ensures Settled(first) ==> Settled(Final([first] + reports))
  {
    if reports == [] {
      assert [first] + reports == [first];
      assert [first][..0] == [];
    } else {
      var n := |reports| - 1;
      StuckAt(reports[..n], first);
      assert [first] + reports == ([first] + reports[..n]) + [reports[n]];
      FinalStep([first] + reports[..n], reports[n]);
    }
  }

  lemma {:induction false} NoFailureNoStop(reports: seq<Status>)
    requires forall r :: r in reports ==> !Failure(r)
    ensures !Failure(Final(reports))
  {
    if reports != [] {
      var shorter, last := reports[..|reports| - 1], reports[|reports| - 1];
      assert reports == shorter + [last];
      NoFailureNoStop(shorter);
    }
  }

  lemma LastRefundWins(reports: seq<Status>, last: Status, before: Status)
    requires !Failure(Final(reports)) && (last == Refunded || last == PartiallyRefunded)
    requires (before == Refunded || before == PartiallyRefunded) && before != last
    ensures Final(reports + [before, last]) == last
  {
    FinalStep(reports, before);
    FinalStep(reports + [before], last);
    assert reports + [before, last] == reports + [before] + [last];
  }

  /** The reports without one occurrence each of two different ones. */
  lemma TakeOut(reports: seq<Status>, a: Status) returns (rest: seq<Status>)
    requires a in reports
    ensures multiset(reports) == multiset(rest) + multiset{a}
    ensures forall b :: b in rest ==> b in reports
    ensures forall b :: b in reports && b != a ==> b in rest
  {
    var i :| 0 <= i < |reports| && reports[i] == a;
    rest := reports[..i] + reports[i + 1..];
    assert reports == reports[..i] + [a] + reports[i + 1..];
  }

  /** Two reports that conflict leave different statuses, each if it is the one to come first, or last. */
  lemma ConflictDivides(reports: seq<Status>, a: Status, b: Status) returns (one: seq<Status>, two: seq<Status>)
    requires a in reports && b in reports && Failure(a) && (Failure(b) || Settled(b)) && a != b
    ensures SameReports(reports, one) && SameReports(reports, two) && Final(one) != Final(two)
  {
    var withoutA := TakeOut(reports, a);
    var withoutB := TakeOut(reports, b);
    one, two := [a] + withoutA, [b] + withoutB;
    StuckAt(withoutA, a);
    StuckAt(withoutB, b);
  }

  lemma RefundsDivide(reports: seq<Status>) returns (one: seq<Status>, two: seq<Status>)
    requires Refunded in reports && PartiallyRefunded in reports && forall r :: r in reports ==> !Failure(r)
    ensures SameReports(reports, one) && SameReports(reports, two) && Final(one) != Final(two)
  {
    var some := TakeOut(reports, Refunded);
    var rest := TakeOut(some, PartiallyRefunded);
    NoFailureNoStop(rest);
    one, two := rest + [Refunded, PartiallyRefunded], rest + [PartiallyRefunded, Refunded];
    LastRefundWins(rest, PartiallyRefunded, Refunded);
    LastRefundWins(rest, Refunded, PartiallyRefunded);
  }

  lemma InconsistentReportsDivide(reports: seq<Status>, a: Status, b: Status)
    requires a in reports && b in reports && Conflict(a, b)
    ensures !OrderFree(reports)
  {
    var one, two;
    if f :| f in reports && Failure(f) {
      var other := if a == f then b else if b == f then a else if Failure(a) || Settled(a) then a else b;
      one, two := ConflictDivides(reports, f, other);
    } else {
      one, two := RefundsDivide(reports);
    }
    assert Final(one) != Final(reports) || Final(two) != Final(reports);
  }

  /** The order of the reports does not matter exactly when no two of them conflict. */
  lemma OrderDoesNotMatter(reports: seq<Status>)
    ensures OrderFree(reports) <==> Consistent(reports)
  {
    if Consistent(reports) {
      forall other | SameReports(reports, other) ensures Final(other) == Final(reports) {
        SameMembers(reports, other);
        ConsistentReportsLeaveTheHighest(reports);
        ConsistentReportsLeaveTheHighest(other);
        HighestIsOne(reports, Final(reports), Final(other));
      }
    } else {
      var a, b :| a in reports && b in reports && Conflict(a, b);
      InconsistentReportsDivide(reports, a, b);
    }
  }

  lemma SameMembers(a: seq<Status>, b: seq<Status>)
    requires SameReports(a, b)
    ensures forall s :: s in a <==> s in b
  {
    forall s ensures s in a <==> s in b {
      assert s in a <==> s in multiset(a);
      assert s in b <==> s in multiset(b);
    }
  }
}
