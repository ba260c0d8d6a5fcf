/** A worker that nobody disturbs does what the service's own operation does in one go. */
module PayoutWorkers {
  import opened Wrappers
  import opened PayoutStatuses
  import opened PayoutStore
  import opened PayoutService
  import opened PayoutProtocol
  import Iris

  lemma Onward(w: World, steps: seq<Step>, w1: World)
    requires Tidy(w.store) && Tidy(w1.store) && steps != [] && Enabled(w, steps[0]) && w1 == Next(w, steps[0])
    requires Allowed(w1, steps[1..])
    ensures Allowed(w, steps) && Run(w, steps) == Run(w1, steps[1..])
  {
    hide Tidy, Enabled, Next;
  }

  lemma Ended(w: World)
    requires Tidy(w.store)
    ensures Allowed(w, []) && Run(w, []) == w
  {
    hide Tidy;
  }

  // ---- one step of one worker ----

  lemma Reads(w: World, tid: int, id: string)
    requires Tidy(w.store) && Fresh(w, tid) && id in w.store.payouts
    ensures Enabled(w, Read(tid, id))
    ensures Next(w, Read(tid, id)) == w.(tasks := w.tasks[tid := Holding(w.store.payouts[id])])
  {
    hide Tidy;
  }

  /** Approved and current, or unresolved and within its window, with an amount that can be sent. */
  predicate Sends(s: Store, p: Payout, now: Time) {
    p.facts.id in s.payouts && s.payouts[p.facts.id] == p && (Submittable(p) || Recoverable(p, now))
    && Iris.Sendable(p.facts.currency)
  }

  lemma Calls(w: World, tid: int, p: Payout)
    requires Tidy(w.store) && tid in w.tasks && w.tasks[tid] == Holding(p) && tid !in w.wire && Sends(w.store, p, w.now)
    ensures Enabled(w, Call(tid))
    ensures var w' := Next(w, Call(tid));
      && w'.store == w.store && w'.now == w.now && w'.gateway == w.gateway && w'.tasks == w.tasks[tid := Calling(p)]
      && w'.wire == w.wire[tid := Underway(Iris.HeaderKey(p.facts.key), p.status == Unresolved, w.now)]
  {
    hide Tidy, Iris.Sendable, Iris.HeaderKey;
  }

  lemma Receives(w: World, tid: int, accept: bool, reference: string, x: Iris.Exchange)
    requires Tidy(w.store) && tid in w.wire && w.wire[tid].Underway?
    ensures Enabled(w, Receive(tid, accept, reference, x))
    ensures var w' := Next(w, Receive(tid, accept, reference, x));
      && w'.store == w.store && w'.now == w.now && w'.tasks == w.tasks
      && w'.wire == w.wire[tid := Landed(w.wire[tid].key, x)]
  {
    hide Tidy, Arrive;
  }

  lemma TakesAnswer(w: World, tid: int, p: Payout, x: Iris.Exchange)
    requires Tidy(w.store) && tid in w.tasks && w.tasks[tid] == Calling(p) && tid in w.wire && w.wire[tid].Landed? && w.wire[tid].answer == x
    ensures Enabled(w, TakeAnswer(tid))
    ensures Next(w, TakeAnswer(tid)) == w.(tasks := w.tasks[tid := Answered(p, Iris.CreateOutcome(x))])
  {
    hide Tidy, Iris.CreateOutcome;
  }

  lemma Records(w: World, tid: int, p: Payout, outcome: Result<Iris.PayoutResult, Iris.CallError>)
    requires Tidy(w.store) && tid in w.tasks && w.tasks[tid] == Answered(p, outcome)
    ensures Enabled(w, RecordCreate(tid))
    ensures Next(w, RecordCreate(tid)) == Done(w, tid, CreateRecorded(w.store, p, outcome, w.now).0)
  {
    hide Tidy, CreateRecorded;
  }

  lemma GivesUp(w: World, tid: int, p: Payout)
    requires Tidy(w.store) && tid in w.tasks && w.tasks[tid] == Calling(p)
    ensures Enabled(w, GiveUp(tid))
    ensures Next(w, GiveUp(tid)) == w.(tasks := w.tasks[tid := Answered(p, Err(Iris.OutcomeUnknown))])
  {
    hide Tidy;
  }

  // ---- the whole way ----

  function CreateRun(tid: int, id: string, accept: bool, reference: string, x: Iris.Exchange): seq<Step> {
    [Read(tid, id), Call(tid), Receive(tid, accept, reference, x), TakeAnswer(tid), RecordCreate(tid)]
  }

  lemma Reconciled(s: Store, p: Payout, x: Iris.Exchange, now: Time)
    requires Tidy(s) && Sends(s, p, now)
    ensures Reconciling(s, p, x, now).0 == CreateRecorded(s, p, Iris.CreateOutcome(x), now).0
  {
    hide Tidy, Iris.Sendable, Iris.CreateOutcome, CreateRecorded;
  }

  lemma AnswerRun(w: World, tid: int, p: Payout, steps: seq<Step>, accept: bool, reference: string, x: Iris.Exchange)
    requires Tidy(w.store) && tid in w.tasks && w.tasks[tid] == Calling(p) && tid in w.wire && w.wire[tid].Underway?
    requires steps == [Receive(tid, accept, reference, x), TakeAnswer(tid), RecordCreate(tid)]
    ensures Allowed(w, steps) && Run(w, steps).store == CreateRecorded(w.store, p, Iris.CreateOutcome(x), w.now).0
  {
    assert steps[1..][1..] == steps[2..] && steps[2..][1..] == [];
    hide *;
    Receives(w, tid, accept, reference, x);
    var w1 := Next(w, steps[0]);
    TakesAnswer(w1, tid, p, x);
    var w2 := Next(w1, steps[1]);
    Records(w2, tid, p, Iris.CreateOutcome(x));
    var w3 := Next(w2, steps[2]);
    Ended(w3);
    Onward(w2, steps[2..], w3);
    Onward(w1, steps[1..], w2);
    Onward(w, steps, w1);
  }

  lemma CallRun(w: World, tid: int, p: Payout, steps: seq<Step>, accept: bool, reference: string, x: Iris.Exchange)
    requires Tidy(w.store) && tid in w.tasks && w.tasks[tid] == Holding(p) && tid !in w.wire && Sends(w.store, p, w.now)
    requires steps == [Call(tid), Receive(tid, accept, reference, x), TakeAnswer(tid), RecordCreate(tid)]
    ensures Allowed(w, steps) && Run(w, steps).store == CreateRecorded(w.store, p, Iris.CreateOutcome(x), w.now).0
  {
    assert steps[1..] == [Receive(tid, accept, reference, x), TakeAnswer(tid), RecordCreate(tid)];
    hide *;
    Calls(w, tid, p);
    var w1 := Next(w, steps[0]);
    AnswerRun(w1, tid, p, steps[1..], accept, reference, x);
    Onward(w, steps, w1);
  }

  /** Reading a row, sending it, and recording the answer leaves the tables as reconciling the payout
      in one go does, whatever the gateway decides and answers. */
  lemma CreateRunReconciles(w: World, tid: int, id: string, accept: bool, reference: string, x: Iris.Exchange)
    requires Tidy(w.store) && Fresh(w, tid) && id in w.store.payouts && Sends(w.store, w.store.payouts[id], w.now)
    ensures Allowed(w, CreateRun(tid, id, accept, reference, x))
    ensures Run(w, CreateRun(tid, id, accept, reference, x)).store == Reconciling(w.store, w.store.payouts[id], x, w.now).0
  {
    var p, steps := w.store.payouts[id], CreateRun(tid, id, accept, reference, x);
    assert steps[1..] == [Call(tid), Receive(tid, accept, reference, x), TakeAnswer(tid), RecordCreate(tid)];
    assert tid !in w.wire;
    Reads(w, tid, id);
    hide *;
    var w1 := Next(w, steps[0]);
    CallRun(w1, tid, p, steps[1..], accept, reference, x);
    Onward(w, steps, w1);
    Reconciled(w.store, p, x, w.now);
  }

  function PollRun(tid: int, id: string, x: Iris.Exchange): seq<Step> {
    [Read(tid, id), Poll(tid, x), RecordPoll(tid)]
  }

  predicate Polls(p: Payout) { p.status == Submitted && p.referenceNo.Some? }

  lemma Asks(w: World, tid: int, p: Payout, x: Iris.Exchange)
    requires Tidy(w.store) && tid in w.tasks && w.tasks[tid] == Holding(p) && Polls(p)
    ensures Enabled(w, Poll(tid, x))
    ensures Next(w, Poll(tid, x)) == w.(tasks := w.tasks[tid := Polled(p, Iris.GetPayout(x))])
  {
    hide Tidy, Iris.GetPayout;
  }

  lemma RecordsRead(w: World, tid: int, p: Payout, outcome: Result<Iris.PayoutResult, Iris.CallError>)
    requires Tidy(w.store) && tid in w.tasks && w.tasks[tid] == Polled(p, outcome)
    ensures Enabled(w, RecordPoll(tid)) && Next(w, RecordPoll(tid)).store == PollRecorded(w.store, p, outcome, w.now).0
  {
    hide Tidy, PollRecorded;
  }

  /** The same for reading the status of a submitted payout. */
  lemma PollRunReconciles(w: World, tid: int, id: string, x: Iris.Exchange)
    requires Tidy(w.store) && Fresh(w, tid) && id in w.store.payouts && Polls(w.store.payouts[id])
    ensures Allowed(w, PollRun(tid, id, x))
    ensures Run(w, PollRun(tid, id, x)).store == Reconciling(w.store, w.store.payouts[id], x, w.now).0
  {
    var p, steps := w.store.payouts[id], PollRun(tid, id, x);
    assert steps[1..][1..] == steps[2..] && steps[2..][1..] == [];
    Reads(w, tid, id);
    PollReconciles(w.store, p, x, w.now);
    hide *;
    var w1 := Next(w, steps[0]);
    Asks(w1, tid, p, x);
    var w2 := Next(w1, steps[1]);
    RecordsRead(w2, tid, p, Iris.GetPayout(x));
    var w3 := Next(w2, steps[2]);
    Ended(w3);
    Onward(w2, steps[2..], w3);
    Onward(w1, steps[1..], w2);
    Onward(w, steps, w1);
  }

  lemma PollReconciles(s: Store, p: Payout, x: Iris.Exchange, now: Time)
    requires Tidy(s) && Polls(p)
    ensures Reconciling(s, p, x, now).0 == PollRecorded(s, p, Iris.GetPayout(x), now).0
  {
    hide Tidy, Iris.GetPayout, PollRecorded;
  }
}
