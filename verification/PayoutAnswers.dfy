/** Exactly which answers about an accepted payout make the tables untrue. */
module PayoutAnswers {
  import opened Wrappers
  import opened PayoutStatuses
  import opened PayoutStore
  import opened PayoutService
  import opened PayoutEffects
  import opened PayoutProtocol
  import opened PayoutSafety
  import opened PayoutBelief
  import PayoutSubmission
  import Iris

  /** What recording an outcome against the current row leaves as its status and reference. */
  function Settling(p: Payout, outcome: Outcome): (PayoutStatus, Option<string>) {
    match outcome
    case Ok(result) =>
      if CanTransitionTo(p.status, result.status) then (result.status, KeepSome(result.reference, p.referenceNo))
      else (p.status, p.referenceNo)
    case Err(e) => (if e == Iris.OutcomeUnknown then Unresolved else Failed, p.referenceNo)
  }

  /** Nothing in the tables stands in the way of the row taking this reference. */
  predicate Clear(s: Store, p: Payout, reference: string) {
    RowAllowed(p) && !ReferenceTaken(s.payouts, p.(referenceNo := KeepSome(reference, p.referenceNo)))
  }

  predicate Current(s: Store, p: Payout) {
    p.facts.id in s.payouts && s.payouts[p.facts.id] == p && (p.status == Approved || p.status == Unresolved)
  }

  lemma MoveIsMade(s: Store, p: Payout, u: StateUpdate, reason: Reason, now: Time)
    requires Tidy(s) && Current(s, p) && CanTransitionTo(p.status, u.status) && Clear(s, p, u.referenceNo)
    requires u.approvedBy == "" && u.rejectedBy == ""
    ensures var s' := Moved(s, p, u, ByGateway, reason, now).0; var id := p.facts.id;
      id in s'.payouts && s'.payouts[id].facts == p.facts && s'.payouts[id].status == u.status
      && s'.payouts[id].referenceNo == KeepSome(u.referenceNo, p.referenceNo)
  {
    RowPasses(s, p, u, now);
    MovedWrites(s, p, u, ByGateway, reason, now);
    hide UpdatedRow, Tidy, RowAllowed, ReferenceTaken, Announcement;
  }

  lemma RowPasses(s: Store, p: Payout, u: StateUpdate, now: Time)
    requires Current(s, p) && CanTransitionTo(p.status, u.status) && Clear(s, p, u.referenceNo)
    requires u.approvedBy == "" && u.rejectedBy == ""
    ensures UpdatedRow(s, p.facts.id, u, now).Ok?
  {
  }

  lemma TouchKeeps(s: Store, p: Payout, now: Time)
    requires Tidy(s) && Current(s, p)
    ensures var s' := Touched(s, p.facts.id, now); var id := p.facts.id;
      id in s'.payouts && s'.payouts[id].facts == p.facts && s'.payouts[id].status == p.status && s'.payouts[id].referenceNo == p.referenceNo
  {
    hide Tidy;
  }

  predicate LeftAs(s: Store, p: Payout, left: (PayoutStatus, Option<string>)) {
    p.facts.id in s.payouts && s.payouts[p.facts.id].facts == p.facts
    && s.payouts[p.facts.id].status == left.0 && s.payouts[p.facts.id].referenceNo == left.1
  }

  lemma ResultLeaves(s: Store, p: Payout, result: Iris.PayoutResult, reason: Reason, now: Time)
    requires Tidy(s) && Current(s, p) && Clear(s, p, result.reference)
    ensures LeftAs(ResultApplied(s, p, result, reason, now).0, p, Settling(p, Ok(result)))
  {
    hide Tidy, Moved, Touched, Clear, Current;
    if CanTransitionTo(p.status, result.status) {
      MoveIsMade(s, p, ResultUpdate(result), reason, now);
    } else {
      TouchKeeps(s, p, now);
    }
  }

  lemma ErrorLeaves(s: Store, p: Payout, cause: Iris.CallError, now: Time)
    requires Tidy(s) && Current(s, p) && Clear(s, p, "") && !(p.status == Unresolved && cause == Iris.OutcomeUnknown)
    ensures LeftAs(FailureRecorded(s, p, cause, now).0, p, Settling(p, Err(cause)))
  {
    hide Tidy, Moved, Clear;
    if cause == Iris.OutcomeUnknown {
      MoveIsMade(s, p, UnknownUpdate(p), OutcomeWasUnknown, now);
    } else {
      MoveIsMade(s, p, To(Failed).(failure := Some(cause)), RefusedByGateway, now);
    }
  }

  lemma RecordLeaves(s: Store, p: Payout, outcome: Outcome, now: Time)
    requires Tidy(s) && Current(s, p) && Clear(s, p, if outcome.Ok? then outcome.value.reference else "")
    ensures LeftAs(CreateRecorded(s, p, outcome, now).0, p, Settling(p, outcome))
  {
    hide Tidy, ResultApplied, FailureRecorded, Touched, Clear;
    match outcome
    case Ok(result) => ResultLeaves(s, p, result, if p.status == Unresolved then ResolvedUnderKey else NoReason, now);
    case Err(cause) =>
      if p.status == Unresolved && cause == Iris.OutcomeUnknown {
        TouchKeeps(s, p, now);
      } else {
        ErrorLeaves(s, p, cause, now);
      }
  }

  /** The answers that mislead about a payout the gateway accepted and did not send back: any refusal,
      whatever its reason, a word for failure or one outside the vocabulary; besides, another reference,
      and "completed" for what was not paid. */
  predicate Misleads(x: Iris.Exchange, p: Payout, r: KeyRecord) {
    if Iris.Declined(x) then r.fate != Bounced
    else if Iris.Held(x).None? then false
    else
      match Iris.MapStatus(Iris.Held(x).value.word)
      case None => r.fate != Bounced
      case Some(Failed) => r.fate != Bounced
      case Some(Submitted) => KeepSome(Iris.Held(x).value.reference, p.referenceNo) != Some(r.reference)
      case Some(Completed) => p.status == Unresolved && r.fate != Paid
      case Some(_) => false
  }

  lemma SettlingFits(x: Iris.Exchange, p: Payout, r: KeyRecord)
    requires r.accepted && (p.status == Approved || p.status == Unresolved) && Iris.Sendable(p.facts.currency)
    ensures var left := Settling(p, Iris.CreateOutcome(x));
      Fits(left.0, left.1, Some(r), p.facts.currency) <==> !Misleads(x, p, r)
  {
    PayoutSubmission.AnswerIsRead(x);
    hide Iris.MapStatus, Iris.CreateOutcome, Iris.Held, Iris.Declined, Iris.Sendable;
  }

  /** Recording the answer to a request under an accepted key leaves the row true of the gateway if and
      only if the answer does not mislead. */
  lemma BooksAreTrueExactly(s: Store, p: Payout, x: Iris.Exchange, now: Time, g: Gateway)
    requires Tidy(s) && Current(s, p) && Iris.Sendable(p.facts.currency)
    requires Clear(s, p, "") && (Iris.Held(x).Some? ==> Clear(s, p, Iris.Held(x).value.reference))
    requires p.facts.id in g.records && g.records[p.facts.id].accepted
    ensures FitsAt(CreateRecorded(s, p, Iris.CreateOutcome(x), now).0, p.facts.id, g) <==> !Misleads(x, p, g.records[p.facts.id])
  {
    PayoutSubmission.AnswerIsRead(x);
    var outcome := Iris.CreateOutcome(x);
    hide Tidy, Clear, CreateRecorded, Misleads, Settling, Fits, Iris.Sendable, Iris.CreateOutcome, Iris.Held, Iris.Declined, Iris.MapStatus;
    RecordLeaves(s, p, outcome, now);
    SettlingFits(x, p, g.records[p.facts.id]);
  }
}
