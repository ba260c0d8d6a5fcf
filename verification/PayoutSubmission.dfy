/** What one create answer makes of a payout, and what happens when the timing assumption is broken. */
module PayoutSubmission {
  import opened Wrappers
  import opened PayoutStatuses
  import opened PayoutStore
  import opened PayoutService
  import opened PayoutProtocol
  import opened PayoutWorkers
  import GoStrings
  import Iris

  /** The status an approved payout ends in, read off the exchange itself. */
  function SettledBy(x: Iris.Exchange): PayoutStatus {
    if Iris.Declined(x) then Failed
    else if Iris.Held(x).None? then Unresolved
    else
      match Iris.MapStatus(Iris.Held(x).value.word)
      case Some(Submitted) => Submitted
      case Some(Failed) => Failed
      case Some(_) => Approved
      case None => Failed
  }

  /** Submitting an approved payout ends in the status its answer settles: one without a decimal form
      fails unsent, one the gateway already calls completed or rejected stays approved, and one it
      holds under a word outside the vocabulary is called failed. */
  lemma SubmissionSettles(s: Store, id: string, x: Iris.Exchange, now: Time)
    requires Tidy(s) && id in s.payouts && s.payouts[id].status == Approved && RowAllowed(s.payouts[id])
    requires Iris.Held(x).Some? ==>
      !ReferenceTaken(s.payouts, s.payouts[id].(referenceNo := KeepSome(Iris.Held(x).value.reference, s.payouts[id].referenceNo)))
    requires !ReferenceTaken(s.payouts, s.payouts[id])
    ensures var s' := Submitting(s, id, x, now).0;
      id in s'.payouts
      && s'.payouts[id].status == if Iris.Sendable(s.payouts[id].facts.currency) then SettledBy(x) else Failed
  {
    var p := s.payouts[id];
    assert p.facts.id == id;
    hide Iris.MapStatus, Iris.CreateOutcome, Iris.Held, Iris.Declined, Tidy, CreateRecorded, RowAllowed, ReferenceTaken, Iris.Sendable, SettledBy;
    if Iris.Sendable(p.facts.currency) {
      OutcomeSettles(s, id, x, now);
    } else {
      UnsendableFails(s, id, now);
    }
  }

  lemma UnsendableFails(s: Store, id: string, now: Time)
    requires Tidy(s) && id in s.payouts && s.payouts[id].status == Approved && RowAllowed(s.payouts[id])
    requires !ReferenceTaken(s.payouts, s.payouts[id])
    ensures var s' := CreateRecorded(s, s.payouts[id], Err(Iris.UnusableAmount), now).0;
      id in s'.payouts && s'.payouts[id].status == Failed
  {
    assert s.payouts[id].facts.id == id;
    hide Tidy;
    var p := s.payouts[id];
    assert p.(referenceNo := p.referenceNo) == p;
    RowIsWritten(s, id, To(Failed).(failure := Some(Iris.UnusableAmount)), now);
  }

  function OutcomeStatus(outcome: Result<Iris.PayoutResult, Iris.CallError>): PayoutStatus {
    match outcome
    case Ok(result) => if result.status == Submitted || result.status == Failed then result.status else Approved
    case Err(e) => if e == Iris.OutcomeUnknown then Unresolved else Failed
  }

  lemma ReadStatus(x: Iris.Exchange)
    ensures OutcomeStatus(Iris.CreateOutcome(x)) == SettledBy(x)
  {
    AnswerIsRead(x);
    hide Iris.MapStatus, Iris.CreateOutcome, Iris.Held, Iris.Declined;
  }

  lemma ResultSettles(s: Store, id: string, result: Iris.PayoutResult, now: Time)
    requires Tidy(s) && id in s.payouts && s.payouts[id].status == Approved && RowAllowed(s.payouts[id])
    requires !ReferenceTaken(s.payouts, s.payouts[id].(referenceNo := KeepSome(result.reference, s.payouts[id].referenceNo)))
    requires Iris.Reportable(result.status)
    ensures var s' := ResultApplied(s, s.payouts[id], result, NoReason, now).0;
      id in s'.payouts && s'.payouts[id].status == OutcomeStatus(Ok(result))
  {
    assert s.payouts[id].facts.id == id;
    hide Tidy, ReferenceTaken, RowAllowed, Moved, Touched;
    if CanTransitionTo(Approved, result.status) {
      MoveSettles(s, id, ResultUpdate(result), NoReason, now);
    } else {
      TouchSettles(s, id, now);
    }
  }

  lemma TouchSettles(s: Store, id: string, now: Time)
    requires Tidy(s) && id in s.payouts
    ensures var s' := Touched(s, id, now); id in s'.payouts && s'.payouts[id].status == s.payouts[id].status
  {
    hide Tidy;
  }

  lemma MoveSettles(s: Store, id: string, u: StateUpdate, reason: Reason, now: Time)
    requires Tidy(s) && id in s.payouts && s.payouts[id].status == Approved && RowAllowed(s.payouts[id]) && CanTransitionTo(Approved, u.status)
    requires u.approvedBy == "" && u.rejectedBy == ""
    requires !ReferenceTaken(s.payouts, s.payouts[id].(referenceNo := KeepSome(u.referenceNo, s.payouts[id].referenceNo)))
    ensures var s' := Moved(s, s.payouts[id], u, ByGateway, reason, now).0; id in s'.payouts && s'.payouts[id].status == u.status
  {
    assert s.payouts[id].facts.id == id;
    RowIsWritten(s, id, u, now);
    hide Tidy, ReferenceTaken, RowAllowed, UpdatedRow, Announcement;
  }

  lemma ErrorSettles(s: Store, id: string, cause: Iris.CallError, now: Time)
    requires Tidy(s) && id in s.payouts && s.payouts[id].status == Approved && RowAllowed(s.payouts[id])
    requires !ReferenceTaken(s.payouts, s.payouts[id])
    ensures var s' := FailureRecorded(s, s.payouts[id], cause, now).0;
      id in s'.payouts && s'.payouts[id].status == OutcomeStatus(Err(cause))
  {
    assert s.payouts[id].facts.id == id;
    var p := s.payouts[id];
    assert p.(referenceNo := p.referenceNo) == p;
    hide Tidy, ReferenceTaken, RowAllowed, Moved;
    if cause == Iris.OutcomeUnknown {
      MoveSettles(s, id, UnknownUpdate(p), OutcomeWasUnknown, now);
    } else {
      MoveSettles(s, id, To(Failed).(failure := Some(cause)), RefusedByGateway, now);
    }
  }

  lemma OutcomeSettles(s: Store, id: string, x: Iris.Exchange, now: Time)
    requires Tidy(s) && id in s.payouts && s.payouts[id].status == Approved && RowAllowed(s.payouts[id])
    requires Iris.Held(x).Some? ==>
      !ReferenceTaken(s.payouts, s.payouts[id].(referenceNo := KeepSome(Iris.Held(x).value.reference, s.payouts[id].referenceNo)))
    requires !ReferenceTaken(s.payouts, s.payouts[id])
    ensures var s' := CreateRecorded(s, s.payouts[id], Iris.CreateOutcome(x), now).0;
      id in s'.payouts && s'.payouts[id].status == SettledBy(x)
  {
    AnswerIsRead(x);
    ReadStatus(x);
    hide Tidy, ReferenceTaken, RowAllowed, SettledBy, OutcomeStatus, FailureRecorded, ResultApplied, Touched,
         Iris.CreateOutcome, Iris.Held, Iris.Declined, Iris.MapStatus;
    match Iris.CreateOutcome(x)
    case Ok(result) => ResultSettles(s, id, result, now);
    case Err(cause) => ErrorSettles(s, id, cause, now);
  }

  /** When the books say failed although the gateway said it holds the payout: exactly for a word that
      means failed and for one outside the vocabulary. */
  lemma FailedThoughHeld(s: Store, id: string, x: Iris.Exchange, now: Time)
    requires Tidy(s) && id in s.payouts && s.payouts[id].status == Approved && RowAllowed(s.payouts[id])
    requires Iris.Held(x).Some? && Iris.Sendable(s.payouts[id].facts.currency)
    requires !ReferenceTaken(s.payouts, s.payouts[id].(referenceNo := KeepSome(Iris.Held(x).value.reference, s.payouts[id].referenceNo)))
    requires !ReferenceTaken(s.payouts, s.payouts[id])
    ensures var s' := Submitting(s, id, x, now).0; var meaning := Iris.MapStatus(Iris.Held(x).value.word);
      id in s'.payouts && (s'.payouts[id].status == Failed <==> meaning == None || meaning == Some(Failed))
  {
    hide Iris.MapStatus, Submitting, Tidy, RowAllowed, ReferenceTaken, Iris.Sendable;
    SubmissionSettles(s, id, x, now);
  }

  lemma RowIsWritten(s: Store, id: string, u: StateUpdate, now: Time)
    requires id in s.payouts && s.payouts[id].status == Approved && RowAllowed(s.payouts[id]) && CanTransitionTo(Approved, u.status)
    requires u.approvedBy == "" && u.rejectedBy == ""
    requires s.payouts[id].facts.id == id
    requires !ReferenceTaken(s.payouts, s.payouts[id].(referenceNo := KeepSome(u.referenceNo, s.payouts[id].referenceNo)))
    ensures UpdatedRow(s, id, u, now).Ok?
  {
  }

  lemma AnswerIsRead(x: Iris.Exchange)
    ensures var o := Iris.CreateOutcome(x);
      match o
      case Ok(result) =>
        !Iris.Declined(x) && Iris.Held(x).Some?
        && Iris.MapStatus(Iris.Held(x).value.word) == Some(result.status) && result.reference == Iris.Held(x).value.reference
      case Err(e) =>
        (e == Iris.OutcomeUnknown <==> !Iris.Declined(x) && Iris.Held(x).None?)
        && (e == Iris.UnmappedStatus <==> Iris.Held(x).Some? && Iris.MapStatus(Iris.Held(x).value.word).None?)
        && (Iris.Declined(x) ==> Iris.Held(x).None?)
        && (e != Iris.OutcomeUnknown && e != Iris.UnmappedStatus ==> Iris.Declined(x))
  {
    hide Iris.MapStatus, GoStrings.Contains, GoStrings.ToLower;
  }

  // ---- why requests must arrive in time ----

  /** One worker reads the row, sends it and has it accepted, and the answer is lost. */
  function LostSend(tid: int, id: string, reference: string): seq<Step> {
    [Read(tid, id), Call(tid), Receive(tid, true, reference, Iris.NoAnswer)]
  }

  ghost predicate Ready(w: World, tid: int, id: string) {
    Tidy(w.store) && Fresh(w, tid) && id in w.store.payouts && w.store.payouts[id].status == Approved
    && Iris.HeaderKey(w.store.payouts[id].facts.key) == id && Iris.Sendable(w.store.payouts[id].facts.currency)
  }

  lemma ReceivesAnew(w: World, tid: int, reference: string)
    requires Tidy(w.store) && tid in w.wire && w.wire[tid].Underway? && !Remembers(w.gateway, w.wire[tid].key, w.now)
    ensures var step := Receive(tid, true, reference, Iris.NoAnswer); Enabled(w, step)
    ensures var w' := Next(w, Receive(tid, true, reference, Iris.NoAnswer)); var id := w.wire[tid].key;
      && w'.store == w.store && w'.now == w.now && w'.tasks == w.tasks
      && w'.wire.Keys == w.wire.Keys
      && Transfers(w'.gateway, id) == Transfers(w.gateway, id) + 1
      && id in w'.gateway.records && w'.gateway.records[id].since == w.now
  {
    hide Tidy;
  }

  /** One more transfer under the key, recorded now, with nothing else new but the worker's own entries. */
  ghost predicate SentOnce(w: World, w': World, tid: int, id: string) {
    && w'.store == w.store && w'.now == w.now
    && Transfers(w'.gateway, id) == Transfers(w.gateway, id) + 1
    && id in w'.gateway.records && w'.gateway.records[id].since == w.now
    && (forall t :: t != tid && Fresh(w, t) ==> Fresh(w', t))
  }

  lemma LostSendTransfers(w: World, tid: int, id: string, reference: string)
    requires Ready(w, tid, id) && !Remembers(w.gateway, id, w.now)
    ensures Allowed(w, LostSend(tid, id, reference)) && SentOnce(w, Run(w, LostSend(tid, id, reference)), tid, id)
  {
    var steps := LostSend(tid, id, reference);
    ReadyRow(w, tid, id);
    Reads(w, tid, id);
    SendRun(w, Next(w, steps[0]), steps, tid, w.store.payouts[id], id, reference);
  }

  lemma SendRun(w: World, w1: World, steps: seq<Step>, tid: int, p: Payout, id: string, reference: string)
    requires Tidy(w.store) && Fresh(w, tid) && id in w.store.payouts && w.store.payouts[id] == p
    requires p.facts.id == id && p.status == Approved && Iris.HeaderKey(p.facts.key) == id && Iris.Sendable(p.facts.currency)
    requires !Remembers(w.gateway, id, w.now) && steps == LostSend(tid, id, reference) && |steps| == 3
    requires Enabled(w, steps[0]) && w1 == Next(w, steps[0]) && w1 == w.(tasks := w.tasks[tid := Holding(p)])
    ensures Allowed(w, steps) && SentOnce(w, Run(w, steps), tid, id)
  {
    hide Tidy, Iris.Sendable, Iris.HeaderKey, Next, Enabled, Remembers, Transfers, Allowed, Run, LostSend, SentOnce;
    var w2, w3 := SendsAndTransfers(w1, tid, p, id, reference);
    RunsThrough(w, steps, w1, w2, w3);
    OnlyRead(w, w1, w3, tid, id);
  }

  lemma OnlyRead(w: World, w1: World, w3: World, tid: int, id: string)
    requires tid !in w.tasks && w1 == w.(tasks := w1.tasks) && w1.tasks.Keys == w.tasks.Keys + {tid} && SentOnce(w1, w3, tid, id)
    ensures SentOnce(w, w3, tid, id)
  {
    forall t | t != tid && Fresh(w, t) ensures Fresh(w3, t) {
      assert Fresh(w1, t);
    }
  }

  lemma SendsAndTransfers(w: World, tid: int, p: Payout, id: string, reference: string) returns (w2: World, w3: World)
    requires Tidy(w.store) && tid in w.tasks && w.tasks[tid] == Holding(p) && tid !in w.wire && p.status == Approved
    requires p.facts.id == id && id in w.store.payouts && w.store.payouts[id] == p && Iris.Sendable(p.facts.currency)
    requires Iris.HeaderKey(p.facts.key) == id && !Remembers(w.gateway, id, w.now)
    ensures var steps := LostSend(tid, id, reference);
      && Enabled(w, steps[1]) && w2 == Next(w, steps[1]) && Enabled(w2, steps[2]) && w3 == Next(w2, steps[2])
    ensures SentOnce(w, w3, tid, id)
  {
    var call, receive := Call(tid), Receive(tid, true, reference, Iris.NoAnswer);
    hide Tidy, Iris.Sendable, Iris.HeaderKey, Next, Enabled, Remembers, Transfers;
    Calls(w, tid, p);
    w2 := Next(w, call);
    ReceivesAnew(w2, tid, reference);
    w3 := Next(w2, receive);
    NothingElse(w, w3, tid);
  }

  lemma NothingElse(w: World, w': World, tid: int)
    requires tid in w.tasks && w'.tasks.Keys == w.tasks.Keys && w'.wire.Keys == w.wire.Keys + {tid}
    ensures forall t :: t != tid && Fresh(w, t) ==> Fresh(w', t)
  {
  }

  lemma ReadyRow(w: World, tid: int, id: string)
    requires Ready(w, tid, id)
    ensures var p := w.store.payouts[id];
      Tidy(w.store) && Fresh(w, tid) && tid !in w.wire && p.facts.id == id && p.status == Approved && Iris.HeaderKey(p.facts.key) == id && Iris.Sendable(p.facts.currency)
  {
    hide Iris.Sendable, Iris.HeaderKey;
  }

  lemma RunsThrough(w: World, steps: seq<Step>, w1: World, w2: World, w3: World)
    requires |steps| == 3 && Tidy(w.store) && Tidy(w1.store) && Tidy(w2.store)
    requires Enabled(w, steps[0]) && w1 == Next(w, steps[0])
    requires Enabled(w1, steps[1]) && w2 == Next(w1, steps[1])
    requires Enabled(w2, steps[2]) && w3 == Next(w2, steps[2])
    ensures Allowed(w, steps) && Run(w, steps) == w3
  {
    hide Next, Enabled, Tidy;
    var one, two := steps[1..], steps[2..];
    assert one[1..] == two && one[0] == steps[1] && two[0] == steps[2] && two[1..] == [];
    assert Allowed(w2, two) && Run(w2, two) == w3;
    assert Allowed(w1, one) && Run(w1, one) == w3;
  }

  /** A lost answer, a wait of the gateway's whole retention, and another worker's first submission. */
  function LateRetry(id: string): seq<Step> {
    LostSend(1, id, "first") + ([Tick(RETENTION)] + LostSend(2, id, "second"))
  }

  /** Without the timing assumption a payout can be paid twice: an approved payout whose first
      submission was never recorded is submitted again under the same key a day later. */
  lemma LateRetryPaysTwice(w: World, id: string)
    requires Ready(w, 1, id) && Fresh(w, 2) && id !in w.gateway.records
    ensures Allowed(w, LateRetry(id))
    ensures Transfers(Run(w, LateRetry(id)).gateway, id) == Transfers(w.gateway, id) + 2
  {
    hide Tidy, Iris.Sendable, Iris.HeaderKey, Transfers, Allowed, Run, LostSend;
    LostSendTransfers(w, 1, id, "first");
    var w1 := Run(w, LostSend(1, id, "first"));
    RunsOne(w1, Tick(RETENTION));
    var w2 := Run(w1, [Tick(RETENTION)]);
    assert w2 == w1.(now := w1.now + RETENTION);
    LostSendTransfers(w2, 2, id, "second");
    hide Next, Enabled, Ready, Remembers;
    RunJoins(w1, [Tick(RETENTION)], LostSend(2, id, "second"));
    RunJoins(w, LostSend(1, id, "first"), [Tick(RETENTION)] + LostSend(2, id, "second"));
  }
}
