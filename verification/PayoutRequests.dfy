/** How a request is answered: refused in a fixed order, answered with the original when it is repeated, and
    otherwise stored. */
module PayoutRequests {
  import opened Wrappers
  import opened PayoutStatuses
  import opened PayoutStore
  import opened PayoutService
  import opened PayoutProtocol
  import opened PayoutSafety
  import opened PayoutAdmission
  import opened PayoutTheorems
  import GoStrings

  /** The checks that need neither the table nor the destination. */
  predicate MayAsk(limits: Option<Limits>, input: RequestInput) {
    && input.amount > 0 && input.reference != "" && limits.Some? && limits.value.enabled
    && (limits.value.maxAmount.Some? ==> input.amount <= limits.value.maxAmount.value)
  }

  /** The payout has the reference of the request. */
  predicate IsFor(p: Payout, input: RequestInput) {
    p.facts.applicationId == input.applicationId && p.facts.reference == input.reference
  }

  /** Whoever may not ask learns nothing of the tables or the destination: the refusal is the same whatever
      they hold, and is the first of the four that applies. */
  lemma RefusedUnseen(s: Store, limits: Option<Limits>, input: RequestInput, beneficiary: Option<Beneficiary>, id: string, now: Time)
    requires Tidy(s) && id !in s.payouts
    ensures var (s', r) := Requesting(s, limits, input, beneficiary, id, now);
      && (r == Err(InvalidAmount) <==> input.amount <= 0)
      && (r == Err(MissingReference) <==> input.amount > 0 && input.reference == "")
      && (r == Err(PayoutsDisabled) <==> input.amount > 0 && input.reference != "" && (limits.None? || !limits.value.enabled))
      && (r == Err(ExceedsMaxAmount) <==>
            input.amount > 0 && input.reference != "" && limits.Some? && limits.value.enabled
            && limits.value.maxAmount.Some? && input.amount > limits.value.maxAmount.value)
      && (!MayAsk(limits, input) ==> s' == s && r.Err?)
  {
    hide Tidy, FindReference, Committed, NewPayout;
  }

  /** A repeated request is answered with the payout it was first answered with, whatever the daily limit and
      the destination are by now, and changes nothing. */
  lemma OriginalIsReturned(s: Store, limits: Option<Limits>, input: RequestInput, beneficiary: Option<Beneficiary>,
                           id: string, now: Time, original: string)
    requires Tidy(s) && id !in s.payouts && MayAsk(limits, input) && ReferencesUnique(s)
    requires original in s.payouts && IsFor(s.payouts[original], input)
    ensures Requesting(s, limits, input, beneficiary, id, now) == (s, Ok(s.payouts[original]))
  {
    TidyLists(s);
    FoundIs(s, input, original);
    hide Tidy, FindReference, Committed, Inserted, NewPayout, ReferencesUnique;
  }

  lemma FoundIs(s: Store, input: RequestInput, original: string)
    requires Tidy(s) && ReferencesUnique(s) && original in s.payouts && IsFor(s.payouts[original], input)
    ensures FindReference(s.payouts, s.order, input.applicationId, input.reference) == Some(s.payouts[original])
  {
    var found := FindReference(s.payouts, s.order, input.applicationId, input.reference);
    hide FindReference;
    assert original in s.order;
    var k :| k in s.order && s.payouts[k] == found.value;
    assert k in s.payouts;
  }

  predicate Unheard(s: Store, input: RequestInput) {
    forall k :: k in s.payouts ==> !IsFor(s.payouts[k], input)
  }

  /** A first request is refused for the daily limit, then for the destination, and otherwise stored. */
  lemma FirstIsJudged(s: Store, limits: Option<Limits>, input: RequestInput, beneficiary: Option<Beneficiary>, id: string, now: Time)
    requires Tidy(s) && id !in s.payouts && MayAsk(limits, input) && Unheard(s, input)
    ensures var (s', r) := Requesting(s, limits, input, beneficiary, id, now);
      var over := limits.value.dailyLimit.Some?
                  && Committed(s.payouts, s.order, input.applicationId, now - 24 * 3600, None) + input.amount > limits.value.dailyLimit.value;
      && (r == Err(ExceedsDailyLimit) <==> over)
      && (r == Err(BeneficiaryNotFound) <==> !over && beneficiary.None?)
      && (r == Err(BeneficiaryDisabled) <==> !over && beneficiary.Some? && beneficiary.value.disabled)
      && (r.Err? <==> over || beneficiary.None? || beneficiary.value.disabled)
      && (r.Err? ==> s' == s)
      && (r.Ok? ==> Stored(s, limits.value, input, beneficiary.value, id, now, s') && r.value == s'.payouts[id])
  {
    TidyLists(s);
    NotFound(s, input);
    if beneficiary.Some? {
      StoredAnew(s, limits.value, input, beneficiary.value, id, now);
    }
    hide Tidy, FindReference, Committed, Inserted, NewPayout, Stored, Unheard;
  }

  lemma NotFound(s: Store, input: RequestInput)
    requires Tidy(s) && Unheard(s, input)
    ensures FindReference(s.payouts, s.order, input.applicationId, input.reference).None?
  {
    hide FindReference;
  }

  /** The row of a request, its first history row and its events: the amount asked for, the currency in upper
      case, the destination as it is now, and nothing taken yet. */
  ghost predicate Stored(s: Store, limits: Limits, input: RequestInput, beneficiary: Beneficiary, id: string, now: Time, s': Store) {
    && id in s'.payouts && id in s'.trail && id in s'.notices
    && s' == Store(s.payouts[id := s'.payouts[id]], s.order + [id], s.trail[id := s'.trail[id]], s.notices[id := s'.notices[id]])
    && var p, status := s'.payouts[id], if limits.requiresApproval then Requested else Approved;
    && p.facts.id == id && p.facts.key == id && p.facts.createdAt == now && p.updatedAt == now && p.status == status
    && p.facts.applicationId == input.applicationId && p.facts.accountId == input.accountId
    && p.facts.reference == input.reference && p.facts.notes == input.notes
    && p.facts.amount == input.amount && p.facts.destination == beneficiary.destination && UpperCased(input.currency, p.facts.currency)
    && p.facts.requestedBy == (if input.requestedBy == "" then None else Some(input.requestedBy))
    && p.gatewayStatus == "" && p.rejectReason == "" && p.referenceNo == None && p.failure == None && p.idempotencyExpiresAt == None
    && p.approvedBy == None && p.approvedAt == None && p.rejectedBy == None && p.rejectedAt == None
    && p.submittedAt == None && p.completedAt == None && p.failedAt == None && p.lastSyncedAt == None
    && s'.trail[id]
       == [Transition(None, status, if input.requestedBy == "" then ByApplication else ByAdmin(input.requestedBy), NoReason, now)]
    && s'.notices[id] == if limits.requiresApproval then [PayoutRequested] else [PayoutRequested, PayoutApproved]
  }

  predicate UpperCased(s: string, t: string) {
    |t| == |s| && forall i :: 0 <= i < |s| ==> t[i] == if 'a' <= s[i] <= 'z' then (s[i] as int - 'a' as int + 'A' as int) as char else s[i]
  }

  lemma StoredAnew(s: Store, limits: Limits, input: RequestInput, beneficiary: Beneficiary, id: string, now: Time)
    requires Tidy(s) && id !in s.payouts
    requires FindReference(s.payouts, s.order, input.applicationId, input.reference).None?
    ensures var p := NewPayout(id, input, beneficiary.destination, if limits.requiresApproval then Requested else Approved, now);
      var (s', r) := Inserted(s, p);
      r == Ok(p) && Stored(s, limits, input, beneficiary, id, now, s') && s'.payouts[id] == p
  {
    hide Tidy, FindReference;
  }

  /** Two requests under one reference, with any run of the service between them and whatever else the second
      asks for: the second is answered with the payout of the first as it is then, and changes nothing. */
  lemma RepeatFindsTheFirst(start: Time, before: seq<Step>, first: Step, after: seq<Step>, limits: Option<Limits>,
                            again: RequestInput, beneficiary: Option<Beneficiary>, id: string)
    requires Allowed(Start(start), before) && first.Request? && Enabled(Run(Start(start), before), first)
    requires var w := Run(Start(start), before);
      && Requesting(w.store, first.limits, first.input, first.beneficiary, first.id, w.now).1.Ok?
      && Allowed(Next(w, first), after) && id !in Run(Next(w, first), after).store.payouts
    requires again.applicationId == first.input.applicationId && again.reference == first.input.reference && MayAsk(limits, again)
    ensures var w := Run(Start(start), before);
      var p := Requesting(w.store, first.limits, first.input, first.beneficiary, first.id, w.now).1.value;
      var w' := Run(Next(w, first), after);
      && p.facts.id in w'.store.payouts && w'.store.payouts[p.facts.id].facts == p.facts
      && Requesting(w'.store, limits, again, beneficiary, id, w'.now) == (w'.store, Ok(w'.store.payouts[p.facts.id]))
  {
    var w := Run(Start(start), before);
    StartSafe(start, false);
    hide Run, Allowed, Enabled, Next, Tidy, Safe, Requesting, ReferencesUnique, Changes, IsFor, MayAsk, Grows;
    RunSafe(Start(start), before, false);
    RunKeepsReferences(Start(start), before);
    SafeIsTidy(w, false);
    AnsweredIsStored(w, first);
    var p := Requesting(w.store, first.limits, first.input, first.beneficiary, first.id, w.now).1.value;
    StillFound(w, first, after, p);
    SameReference(Run(Next(w, first), after).store, p, first.input, again);
    OriginalIsReturned(Run(Next(w, first), after).store, limits, again, beneficiary, id, Run(Next(w, first), after).now, p.facts.id);
  }

  lemma SameReference(s: Store, p: Payout, input: RequestInput, again: RequestInput)
    requires p.facts.id in s.payouts && s.payouts[p.facts.id].facts == p.facts && IsFor(p, input)
    requires again.applicationId == input.applicationId && again.reference == input.reference
    ensures IsFor(s.payouts[p.facts.id], again)
  {
  }

  /** A payout in the table stays in it, the only one of its reference, over any run. */
  lemma StillFound(w: World, step: Step, steps: seq<Step>, p: Payout)
    requires Safe(w, false) && Tidy(w.store) && ReferencesUnique(w.store) && Enabled(w, step) && Allowed(Next(w, step), steps)
    requires p.facts.id in Next(w, step).store.payouts && Next(w, step).store.payouts[p.facts.id] == p
    ensures var s' := Run(Next(w, step), steps).store;
      Tidy(s') && ReferencesUnique(s') && p.facts.id in s'.payouts && s'.payouts[p.facts.id].facts == p.facts
  {
    var w1 := Next(w, step);
    NextSafe(w, step, false);
    var c := NextStore(w, step);
    hide Run, Allowed, Enabled, Next, Safe, ReferencesUnique, Changes, Tidy;
    ChangeKeepsReferences(w.store, w1.store, c);
    RunKeepsReferences(w1, steps);
    RunGrows(w1, steps);
  }

  /** Whatever a request is answered with is in the table under its reference. */
  lemma AnsweredIsStored(w: World, first: Step)
    requires Tidy(w.store) && first.Request? && Enabled(w, first)
    requires Requesting(w.store, first.limits, first.input, first.beneficiary, first.id, w.now).1.Ok?
    ensures var p := Requesting(w.store, first.limits, first.input, first.beneficiary, first.id, w.now).1.value;
      var s' := Next(w, first).store;
      p.facts.id in s'.payouts && s'.payouts[p.facts.id] == p && IsFor(p, first.input)
  {
    AnswerIsKept(w.store, first.limits, first.input, first.beneficiary, first.id, w.now);
    hide Requesting, Tidy, IsFor;
  }

  lemma AnswerIsKept(s: Store, limits: Option<Limits>, input: RequestInput, beneficiary: Option<Beneficiary>, id: string, now: Time)
    requires Tidy(s) && id !in s.payouts
    ensures var (s', r) := Requesting(s, limits, input, beneficiary, id, now);
      r.Ok? ==> r.value.facts.id in s'.payouts && s'.payouts[r.value.facts.id] == r.value && IsFor(r.value, input)
  {
    hide Tidy, FindReference, Inserted, NewPayout, Committed;
    match Judge(s, limits, input, beneficiary, now)
    case Refuse(_) =>
    case Original(p) => FoundIsKept(s, input, p);
    case Admit(destination, status) => InsertedIsKept(s, input, destination, status, id, now);
  }

  lemma FoundIsKept(s: Store, input: RequestInput, p: Payout)
    requires Tidy(s) && FindReference(s.payouts, s.order, input.applicationId, input.reference) == Some(p)
    ensures p.facts.id in s.payouts && s.payouts[p.facts.id] == p && IsFor(p, input)
  {
    hide FindReference;
    var k :| k in s.order && s.payouts[k] == p;
    assert s.payouts[k].facts.id == k;
  }

  lemma InsertedIsKept(s: Store, input: RequestInput, destination: Destination, status: PayoutStatus, id: string, now: Time)
    requires Tidy(s) && id !in s.payouts
    ensures var p := NewPayout(id, input, destination, status, now); var (s', r) := Inserted(s, p);
      p.facts.id == id && IsFor(p, input) && (r.Ok? ==> r.value == p && id in s'.payouts && s'.payouts[id] == p)
  {
    hide Tidy, FindReference;
  }
}
