/** Runs from the empty tables that show which promises depend on what. */
module PayoutWitnesses {
  import opened Wrappers
  import opened PayoutStatuses
  import opened PayoutStore
  import opened PayoutService
  import opened PayoutEffects
  import opened PayoutProtocol
  import opened PayoutSafety
  import opened PayoutWorkers
  import opened PayoutTheorems
  import PayoutSubmission
  import GoStrings
  import Iris
  import Money

  // ---- building a run from its beginning ----

  ghost predicate Reaches(w0: World, steps: seq<Step>, w: World) {
    Tidy(w0.store) && Allowed(w0, steps) && Run(w0, steps) == w
  }

  lemma FromHere(w: World)
    requires Tidy(w.store)
    ensures Reaches(w, [], w)
  {
    hide Tidy;
  }

  lemma OneStepMore(w0: World, steps: seq<Step>, w: World, step: Step)
    requires Reaches(w0, steps, w) && Tidy(w.store) && Enabled(w, step)
    ensures Reaches(w0, steps + [step], Next(w, step)) && Tidy(Next(w, step).store)
  {
    hide Tidy, Enabled, Next, Allowed, Run;
    RunsOne(w, step);
    RunJoins(w0, steps, [step]);
  }

  lemma ReadMore(w0: World, steps: seq<Step>, w: World, tid: int, id: string) returns (w': World)
    requires Reaches(w0, steps, w) && Tidy(w.store) && Fresh(w, tid) && id in w.store.payouts
    ensures Reaches(w0, steps + [Read(tid, id)], w') && w' == w.(tasks := w.tasks[tid := Holding(w.store.payouts[id])])
  {
    hide *;
    Reads(w, tid, id);
    OneStepMore(w0, steps, w, Read(tid, id));
    w' := Next(w, Read(tid, id));
  }

  lemma CallMore(w0: World, steps: seq<Step>, w: World, tid: int, p: Payout) returns (w': World)
    requires Reaches(w0, steps, w) && Tidy(w.store) && Sends(w.store, p, w.now)
    requires tid in w.tasks && w.tasks[tid] == Holding(p) && tid !in w.wire
    ensures Reaches(w0, steps + [Call(tid)], w')
    ensures w'.store == w.store && w'.now == w.now && w'.gateway == w.gateway && w'.tasks == w.tasks[tid := Calling(p)]
    ensures w'.wire == w.wire[tid := Underway(Iris.HeaderKey(p.facts.key), p.status == Unresolved, w.now)]
  {
    hide *;
    Calls(w, tid, p);
    OneStepMore(w0, steps, w, Call(tid));
    w' := Next(w, Call(tid));
  }

  lemma ReceiveMore(w0: World, steps: seq<Step>, w: World, tid: int, accept: bool, reference: string, x: Iris.Exchange) returns (w': World)
    requires Reaches(w0, steps, w) && Tidy(w.store) && tid in w.wire && w.wire[tid].Underway?
    ensures Reaches(w0, steps + [Receive(tid, accept, reference, x)], w')
    ensures w'.store == w.store && w'.now == w.now && w'.tasks == w.tasks
    ensures w'.wire == w.wire[tid := Landed(w.wire[tid].key, x)]
    ensures w'.gateway == Arrive(w.gateway, w.wire[tid].key, w.now, accept, reference)
  {
    Receives(w, tid, accept, reference, x);
    ReceivedAt(w, tid, accept, reference, x);
    hide *;
    OneStepMore(w0, steps, w, Receive(tid, accept, reference, x));
    w' := Next(w, Receive(tid, accept, reference, x));
  }

  lemma ReceivedAt(w: World, tid: int, accept: bool, reference: string, x: Iris.Exchange)
    requires Tidy(w.store) && Enabled(w, Receive(tid, accept, reference, x))
    ensures tid in w.wire
    ensures Next(w, Receive(tid, accept, reference, x)).gateway == Arrive(w.gateway, w.wire[tid].key, w.now, accept, reference)
  {
    hide Tidy, Arrive;
  }

  lemma TakeMore(w0: World, steps: seq<Step>, w: World, tid: int, p: Payout, x: Iris.Exchange) returns (w': World)
    requires Reaches(w0, steps, w) && Tidy(w.store) && tid in w.tasks && w.tasks[tid] == Calling(p)
    requires tid in w.wire && w.wire[tid].Landed? && w.wire[tid].answer == x
    ensures Reaches(w0, steps + [TakeAnswer(tid)], w') && w' == w.(tasks := w.tasks[tid := Answered(p, Iris.CreateOutcome(x))])
  {
    hide *;
    TakesAnswer(w, tid, p, x);
    OneStepMore(w0, steps, w, TakeAnswer(tid));
    w' := Next(w, TakeAnswer(tid));
  }

  lemma GiveUpMore(w0: World, steps: seq<Step>, w: World, tid: int, p: Payout) returns (w': World)
    requires Reaches(w0, steps, w) && Tidy(w.store) && tid in w.tasks && w.tasks[tid] == Calling(p)
    ensures Reaches(w0, steps + [GiveUp(tid)], w') && w' == w.(tasks := w.tasks[tid := Answered(p, Err(Iris.OutcomeUnknown))])
  {
    hide *;
    GivesUp(w, tid, p);
    OneStepMore(w0, steps, w, GiveUp(tid));
    w' := Next(w, GiveUp(tid));
  }

  lemma RecordMore(w0: World, steps: seq<Step>, w: World, tid: int, p: Payout, outcome: Result<Iris.PayoutResult, Iris.CallError>)
    returns (w': World)
    requires Reaches(w0, steps, w) && Tidy(w.store) && tid in w.tasks && w.tasks[tid] == Answered(p, outcome)
    ensures Reaches(w0, steps + [RecordCreate(tid)], w') && w' == Done(w, tid, CreateRecorded(w.store, p, outcome, w.now).0)
    ensures Enabled(w, RecordCreate(tid)) && w' == Next(w, RecordCreate(tid)) && Tidy(w'.store)
  {
    hide *;
    Records(w, tid, p, outcome);
    OneStepMore(w0, steps, w, RecordCreate(tid));
    w' := Next(w, RecordCreate(tid));
  }

  // ---- one payout, released on request ----

  const LIMITS := Limits(true, false, None, None)
  const INPUT := RequestInput("app", "account", "reference", 1000, "IDR", "", "")
  const BENEFICIARY := Beneficiary(Destination("name", "number", "bank", "mail"), false)

  function Asking(id: string): Step { Request(Some(LIMITS), INPUT, Some(BENEFICIARY), id) }

  function ThePayout(id: string, at: Time): Payout { NewPayout(id, INPUT, BENEFICIARY.destination, Approved, at) }

  function OneRow(id: string, at: Time): Store {
    var p := ThePayout(id, at);
    Store(map[id := p], [id], map[id := [FirstRow(p)]], map[id := FirstNotices(Approved)])
  }

  function Asked(id: string, at: Time): World { Start(at).(store := OneRow(id, at)) }

  lemma RupiahCanBeSent()
    ensures Iris.Sendable(GoStrings.ToUpper("IDR"))
  {
    var code := GoStrings.ToUpper("IDR");
    assert code == "IDR";
    assert GoStrings.SpaceAtStart(code) == 0 && GoStrings.SpaceAtEnd(code) == 0;
    assert Money.NormalizeCurrency(code) == "IDR";
  }

  lemma AskedIsReached(id: string, at: Time)
    requires |id| <= 100
    ensures Reaches(Start(at), [Asking(id)], Asked(id, at)) && Tidy(Asked(id, at).store)
  {
    FromHere(Start(at));
    AskingAdmits(id, at);
    OneStepMore(Start(at), [], Start(at), Asking(id));
    assert [] + [Asking(id)] == [Asking(id)];
  }

  lemma AskingAdmits(id: string, at: Time)
    requires |id| <= 100
    ensures Enabled(Start(at), Asking(id)) && Next(Start(at), Asking(id)) == Asked(id, at)
  {
    assert Tidy(EMPTY_STORE);
    hide Tidy;
    assert INPUT.reference != "" && INPUT.amount > 0;
    var v := Judge(EMPTY_STORE, Some(LIMITS), INPUT, Some(BENEFICIARY), at);
    assert v == Admit(BENEFICIARY.destination, Approved);
  }

  lemma AskedRow(id: string, at: Time)
    requires |id| <= 100
    ensures var w := Asked(id, at); var p := ThePayout(id, at);
      && id in w.store.payouts && w.store.payouts[id] == p && p.facts.id == id && p.status == Approved
      && Sends(w.store, p, w.now) && Iris.HeaderKey(p.facts.key) == id
      && w.tasks == map[] && w.wire == map[] && w.gateway == Gateway(map[], map[])
  {
    RupiahCanBeSent();
    HeaderKeyIsWhole(id);
    hide Iris.Sendable, Iris.HeaderKey, GoStrings.ToUpper;
  }

  // ---- two workers and one lost answer ----

  const QUEUED := Iris.Answer(201, "", Iris.Entries([Iris.Entry("queued", "reference-1")]))

  /** Both workers send the payout.  The second gives up waiting and records an unknown outcome before
      the first records that it was accepted. */
  function LostAnswer(id: string): seq<Step> {
    [Asking(id), Read(1, id), Read(2, id), Call(1), Receive(1, true, "reference-1", QUEUED), TakeAnswer(1), Call(2), GiveUp(2),
     RecordCreate(2), RecordCreate(1)]
  }

  lemma QueuedIsSubmitted()
    ensures Iris.CreateOutcome(QUEUED) == Ok(Iris.PayoutResult(Submitted, "reference-1", "queued"))
  {
    assert GoStrings.SpaceAtStart("queued") == 0 && GoStrings.SpaceAtEnd("queued") == 0;
    assert GoStrings.TrimSpace("queued") == "queued";
    assert GoStrings.ToLower("queued") == "queued";
    Iris.Vocabulary("queued");
    hide Iris.MapStatus, GoStrings.TrimSpace, GoStrings.ToLower;
  }

  lemma BothRead(id: string, at: Time) returns (w: World)
    requires |id| <= 100
    ensures Reaches(Start(at), [Asking(id)] + [Read(1, id)] + [Read(2, id)], w) && Tidy(w.store)
    ensures var p := ThePayout(id, at);
      && w.now == at && w.store == OneRow(id, at) && Sends(w.store, p, w.now)
      && w.tasks == map[1 := Holding(p), 2 := Holding(p)] && w.wire == map[]
  {
    AskedIsReached(id, at);
    AskedRow(id, at);
    AskedIs(id, at);
    hide *;
    var w0, w1 := Start(at), Asked(id, at);
    NobodyYet(w1, 1);
    var w2 := ReadMore(w0, [Asking(id)], w1, 1, id);
    OnlyOne(w1, w2, 1, 2);
    w := ReadMore(w0, [Asking(id)] + [Read(1, id)], w2, 2, id);
  }

  lemma FirstGetsAnswer(w0: World, run: seq<Step>, w: World, p: Payout) returns (w': World)
    requires Reaches(w0, run, w) && Tidy(w.store) && Sends(w.store, p, w.now)
    requires w.tasks == map[1 := Holding(p), 2 := Holding(p)] && w.wire == map[]
    ensures Reaches(w0, run + [Call(1)] + [Receive(1, true, "reference-1", QUEUED)] + [TakeAnswer(1)], w')
    ensures w'.store == w.store && w'.now == w.now && w'.wire.Keys == {1}
    ensures w'.tasks == map[1 := Answered(p, Iris.CreateOutcome(QUEUED)), 2 := Holding(p)]
  {
    hide *;
    var w1 := CallMore(w0, run, w, 1, p);
    var w2 := ReceiveMore(w0, run + [Call(1)], w1, 1, true, "reference-1", QUEUED);
    w' := TakeMore(w0, run + [Call(1)] + [Receive(1, true, "reference-1", QUEUED)], w2, 1, p, QUEUED);
  }

  lemma SecondGivesUp(w0: World, run: seq<Step>, w: World, p: Payout, outcome: Result<Iris.PayoutResult, Iris.CallError>) returns (w': World)
    requires Reaches(w0, run, w) && Tidy(w.store) && Sends(w.store, p, w.now)
    requires w.tasks == map[1 := Answered(p, outcome), 2 := Holding(p)] && 2 !in w.wire
    ensures Reaches(w0, run + [Call(2)] + [GiveUp(2)] + [RecordCreate(2)], w') && Tidy(w'.store) && w'.now == w.now
    ensures w'.store == CreateRecorded(w.store, p, Err(Iris.OutcomeUnknown), w.now).0
    ensures w'.tasks == map[1 := Answered(p, outcome)]
  {
    hide *;
    var w1 := CallMore(w0, run, w, 2, p);
    var w2 := GiveUpMore(w0, run + [Call(2)], w1, 2, p);
    w' := RecordMore(w0, run + [Call(2)] + [GiveUp(2)], w2, 2, p, Err(Iris.OutcomeUnknown));
    DoneIs(w2, 2, CreateRecorded(w2.store, p, Err(Iris.OutcomeUnknown), w2.now).0);
    assert w'.tasks == map[1 := Answered(p, outcome)];
  }

  lemma DoneIs(w: World, tid: int, s: Store)
    ensures Done(w, tid, s) == w.(store := s, tasks := w.tasks - {tid})
  {
  }

  lemma AskedIs(id: string, at: Time)
    ensures Asked(id, at) == Start(at).(store := OneRow(id, at)) && Asked(id, at).now == at && Tidy(Asked(id, at).store)
  {
  }

  lemma NobodyYet(w: World, tid: int)
    requires w.tasks == map[] && w.wire == map[]
    ensures Fresh(w, tid)
  {
  }

  lemma OnlyOne(w: World, w': World, tid: int, other: int)
    requires w.tasks == map[] && w.wire == map[] && w' == w.(tasks := w'.tasks) && w'.tasks.Keys == {tid} && other != tid
    ensures Fresh(w', other)
  {
  }

  lemma RunInParts(id: string)
    ensures LostAnswer(id)
      == [Asking(id)] + [Read(1, id)] + [Read(2, id)]
         + [Call(1)] + [Receive(1, true, "reference-1", QUEUED)] + [TakeAnswer(1)]
         + [Call(2)] + [GiveUp(2)] + [RecordCreate(2)] + [RecordCreate(1)]
  {
  }

  /** What the two records make of the row. */
  lemma FirstRecord(id: string, at: Time)
    requires |id| <= 100
    ensures Tidy(OneRow(id, at))
    ensures var p := ThePayout(id, at); var s := CreateRecorded(OneRow(id, at), p, Err(Iris.OutcomeUnknown), at).0;
      && p.facts.id == id && p.status == Approved
      && Tidy(s) && id in s.payouts && s.payouts.Keys == {id} && s.payouts[id].status == Unresolved
      && s.payouts[id].facts == p.facts && s.payouts[id].approvedBy == None && s.payouts[id].rejectedAt == None
      && id in s.trail && |s.trail[id]| == 2 && s.trail[id][1].to == Unresolved
  {
    TheFacts(id, at);
    hide ThePayout, FirstNotices, FirstRow;
    FirstRecordOf(id, ThePayout(id, at), at);
  }

  lemma FirstRecordOf(id: string, p: Payout, at: Time)
    requires p.facts.id == id && p.status == Approved && p.approvedBy == None && p.rejectedAt == None && p.referenceNo == None
    requires p.approvedAt == None && p == ThePayout(id, at)
    ensures Tidy(OneRow(id, at))
    ensures var s := CreateRecorded(OneRow(id, at), p, Err(Iris.OutcomeUnknown), at).0;
      && Tidy(s) && id in s.payouts && s.payouts.Keys == {id} && s.payouts[id].status == Unresolved
      && s.payouts[id].facts == p.facts && s.payouts[id].approvedBy == None && s.payouts[id].rejectedAt == None
      && id in s.trail && |s.trail[id]| == 2 && s.trail[id][1].to == Unresolved
  {
    var s := OneRow(id, at);
    OneRowIs(id, at);
    NobodyElse(s, id, p);
    PayoutSubmission.RowIsWritten(s, id, UnknownUpdate(p), at);
    UnknownRow(s, id, p, at);
    hide ThePayout, FirstNotices, FirstRow, Announcement, OneRow, UpdatedRow, Put, Tidy, UnknownUpdate;
    var q := UpdatedRow(s, id, UnknownUpdate(p), at).value;
    var row := Transition(Some(Approved), Unresolved, ByGateway, OutcomeWasUnknown, at);
    PutFrame(s, id, q, s.trail[id] + [row], s.notices[id] + Announcement(Unresolved));
    AllInTrail(Put(s, id, q, s.trail[id] + [row], s.notices[id] + Announcement(Unresolved)), id);
    UnknownIsUnresolved(p);
  }

  lemma UnknownIsUnresolved(p: Payout)
    ensures UnknownUpdate(p).status == Unresolved
  {
  }

  lemma OneRowIs(id: string, at: Time)
    ensures var s, p := OneRow(id, at), ThePayout(id, at);
      && Tidy(s) && id in s.payouts && s.payouts.Keys == {id} && s.payouts[id] == p && id in s.trail && id in s.notices && |s.trail[id]| == 1
  {
    hide FirstRow, FirstNotices;
  }

  lemma NobodyElse(s: Store, id: string, p: Payout)
    requires Tidy(s) && s.payouts.Keys == {id} && s.payouts[id] == p && p.referenceNo == None && p.facts.id == id
    requires p.approvedBy == None && p.rejectedAt == None
    ensures RowAllowed(p) && !ReferenceTaken(s.payouts, p.(referenceNo := KeepSome(UnknownUpdate(p).referenceNo, p.referenceNo)))
  {
    hide Tidy;
  }

  lemma UnknownRow(s: Store, id: string, p: Payout, at: Time)
    requires id in s.payouts && s.payouts[id] == p && UpdatedRow(s, id, UnknownUpdate(p), at).Ok?
    requires p.approvedBy == None && p.rejectedAt == None
    ensures var q := UpdatedRow(s, id, UnknownUpdate(p), at).value;
      q.facts == p.facts && q.status == Unresolved && q.approvedBy == None && q.rejectedAt == None
  {
    hide RowAllowed, ReferenceTaken;
  }

  lemma TheFacts(id: string, at: Time)
    ensures var p := ThePayout(id, at);
      p.facts.id == id && p.status == Approved && p.approvedBy == None && p.rejectedAt == None && p.referenceNo == None && p.approvedAt == None
  {
  }

  lemma SecondRecord(s: Store, p: Payout, result: Iris.PayoutResult, at: Time)
    requires var id := p.facts.id;
      && Tidy(s) && id in s.payouts && s.payouts.Keys == {id} && s.payouts[id].status == Unresolved && s.payouts[id].facts == p.facts
      && s.payouts[id].approvedBy == None && s.payouts[id].rejectedAt == None
      && id in s.trail && |s.trail[id]| == 2 && s.trail[id][1].to == Unresolved
    requires p.status == Approved && result.status == Submitted
    ensures var id := p.facts.id; var s' := CreateRecorded(s, p, Ok(result), at).0;
      id in s'.trail && |s'.trail[id]| == 3 && s'.trail[id][1].to == Unresolved && s'.trail[id][2].from == Some(Approved)
  {
    hide Tidy;
  }

  /** The promise of RecordedFromExactly fails on the last row of this run from the empty tables: it says
      the payout left Approved, the row before it that it had already left that for Unresolved. */
  lemma LostAnswerDisjoins(id: string, at: Time)
    requires |id| <= 100
    ensures Allowed(Start(at), LostAnswer(id))
    ensures var s := Run(Start(at), LostAnswer(id)).store;
      && id in s.trail && |s.trail[id]| == 3 && !Joined(s.trail[id])
      && s.trail[id][1].to == Unresolved && s.trail[id][2].from == Some(Approved)
  {
    var p := ThePayout(id, at);
    FirstRecord(id, at);
    QueuedIsSubmitted();
    RunInParts(id);
    var result := Iris.PayoutResult(Submitted, "reference-1", "queued");
    SecondRecord(CreateRecorded(OneRow(id, at), p, Err(Iris.OutcomeUnknown), at).0, p, result, at);
    hide Tidy, OneRow, ThePayout, CreateRecorded, LostAnswer, Allowed, Run, Sends, Reaches, Iris.CreateOutcome, Asking, Start;
    var w := LostAnswerRun(id, at);
    ReachedIs(Start(at), LostAnswer(id), w);
  }

  lemma ReachedIs(w0: World, steps: seq<Step>, w: World)
    requires Reaches(w0, steps, w)
    ensures Tidy(w0.store) && Allowed(w0, steps) && Run(w0, steps) == w
  {
  }

  lemma LostAnswerRun(id: string, at: Time) returns (w: World)
    requires |id| <= 100
    ensures Reaches(Start(at), LostAnswer(id), w) && Tidy(OneRow(id, at))
    ensures var p := ThePayout(id, at);
      w.store == CreateRecorded(CreateRecorded(OneRow(id, at), p, Err(Iris.OutcomeUnknown), at).0, p, Iris.CreateOutcome(QUEUED), at).0
  {
    RunInParts(id);
    FirstRecord(id, at);
    hide *;
    var p, outcome := ThePayout(id, at), Iris.CreateOutcome(QUEUED);
    var run := [Asking(id)] + [Read(1, id)] + [Read(2, id)];
    var w1 := BothRead(id, at);
    var w2 := FirstGetsAnswer(Start(at), run, w1, p);
    run := run + [Call(1)] + [Receive(1, true, "reference-1", QUEUED)] + [TakeAnswer(1)];
    var w3 := SecondGivesUp(Start(at), run, w2, p, outcome);
    run := run + [Call(2)] + [GiveUp(2)] + [RecordCreate(2)];
    w := RecordMore(Start(at), run, w3, 1, p, outcome);
    DoneIs(w3, 1, CreateRecorded(w3.store, p, outcome, w3.now).0);
  }

  // ---- a payout that is paid twice ----

  /** A payout is requested and sent, the answer is lost and never recorded, and a day later it is sent
      again under its key. */
  function TwoDays(id: string): seq<Step> { [Asking(id)] + PayoutSubmission.LateRetry(id) }

  /** Without the timing assumption of AtMostOneTransfer, from the empty tables: two transfers. */
  lemma PaidTwice(id: string, at: Time)
    requires |id| <= 100
    ensures Allowed(Start(at), TwoDays(id)) && Transfers(Run(Start(at), TwoDays(id)).gateway, id) == 2
  {
    AskedIsReached(id, at);
    ReachedIs(Start(at), [Asking(id)], Asked(id, at));
    AskedIsReady(id, at);
    assert Transfers(Asked(id, at).gateway, id) == 0;
    hide Tidy, Reaches, Run, Allowed, PayoutSubmission.LateRetry, PayoutSubmission.Ready, Asked, Asking, Start, Transfers;
    PayoutSubmission.LateRetryPaysTwice(Asked(id, at), id);
    RunJoins(Start(at), [Asking(id)], PayoutSubmission.LateRetry(id));
  }

  lemma AskedIsReady(id: string, at: Time)
    requires |id| <= 100
    ensures var w := Asked(id, at);
      PayoutSubmission.Ready(w, 1, id) && Fresh(w, 2) && id !in w.gateway.records
  {
    AskedIs(id, at);
    AskedRow(id, at);
    hide Tidy, Iris.Sendable, Iris.HeaderKey, ThePayout, Asked;
  }
}
