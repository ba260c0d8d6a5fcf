/** Workers, administrators, the clock, the network and the gateway, acting on the payout tables in
    any order.  Every action works from a copy of a row read earlier. */
module PayoutProtocol {
  import opened Wrappers
  import opened PayoutStatuses
  import opened PayoutStore
  import opened PayoutService
  import opened PayoutEffects
  import Iris

  /** How long the gateway answers a key with the original result. */
  const RETENTION: Time := 24 * HOUR

  /** What is left between the end of the resend window and the end of the retention. */
  const FLIGHT_LIMIT: Time := 4 * HOUR

  // ---- the gateway ----

  /** What became of a transfer the gateway took on. */
  datatype Fate = InProgress | Paid | Bounced | Blocked

  function Reported(f: Fate): PayoutStatus {
    match f
    case InProgress => Submitted
    case Paid => Completed
    case Bounced => Failed
    case Blocked => Rejected
  }

  /** The gateway's memory of one key: when it was first seen and what it decided then. */
  datatype KeyRecord = KeyRecord(since: Time, accepted: bool, reference: string, fate: Fate)

  datatype Gateway = Gateway(records: map<string, KeyRecord>, transfers: map<string, nat>)

  /** How many transfers the gateway has started under a key. */
  function Transfers(g: Gateway, key: string): nat {
    if key in g.transfers then g.transfers[key] else 0
  }

  predicate Remembers(g: Gateway, key: string, now: Time) {
    key in g.records && now < g.records[key].since + RETENTION
  }

  /** A create request arrives.  A remembered key changes nothing; any other is decided afresh, and
      accepting it starts a transfer. */
  function Arrive(g: Gateway, key: string, now: Time, accept: bool, reference: string): (g': Gateway)
    ensures key in g'.records
  {
    if Remembers(g, key, now) then g
    else Gateway(g.records[key := KeyRecord(now, accept, reference, InProgress)],
                 if accept then g.transfers[key := Transfers(g, key) + 1] else g.transfers)
  }

  // ---- the world ----

  datatype Task =
    | Drafted(input: RequestInput, destination: Destination, status: PayoutStatus)
    | Holding(p: Payout)
    | Calling(p: Payout)
    | Answered(p: Payout, outcome: Outcome)
    | Polled(p: Payout, outcome: Outcome)

  /** A create request on the network, from the check that allowed it until the gateway answered. */
  datatype Message =
    | Underway(key: string, resend: bool, checkedAt: Time)
    | Landed(key: string, answer: Iris.Exchange)

  /** `firstSend` records when a key was first put on the wire. */
  datatype World = World(
    now: Time, store: Store, gateway: Gateway,
    tasks: map<int, Task>, wire: map<int, Message>, firstSend: map<string, Time>)

  datatype Step =
    | Tick(elapsed: nat)
    | Request(limits: Option<Limits>, input: RequestInput, beneficiary: Option<Beneficiary>, id: string)
    | Draft(tid: int, limits: Option<Limits>, input: RequestInput, beneficiary: Option<Beneficiary>)
    | Insert(tid: int, id: string)
    | Read(tid: int, id: string)
    | Approve(tid: int, admin: string)
    | Reject(tid: int, admin: string, reason: string)
    | Call(tid: int)
    | Receive(tid: int, accept: bool, reference: string, x: Iris.Exchange)
    | Progress(key: string, fate: Fate)
    | TakeAnswer(tid: int)
    | GiveUp(tid: int)
    | RecordCreate(tid: int)
    | Poll(tid: int, x: Iris.Exchange)
    | RecordPoll(tid: int)
    | Drop(tid: int)

  predicate Fresh(w: World, tid: int) { tid !in w.tasks && tid !in w.wire }

  /** Generated identifiers are new and shorter than the header limit. */
  predicate NewId(w: World, id: string) { id !in w.store.payouts && |id| <= 100 }

  predicate HoldingOne(w: World, tid: int) { tid in w.tasks && w.tasks[tid].Holding? }

  predicate Enabled(w: World, step: Step)
    requires Tidy(w.store)
  {
    match step
    case Tick(_) => true
    case Request(_, _, _, id) => NewId(w, id)
    case Draft(tid, limits, input, beneficiary) =>
      Fresh(w, tid) && Judge(w.store, limits, input, beneficiary, w.now).Admit?
    case Insert(tid, id) => tid in w.tasks && w.tasks[tid].Drafted? && NewId(w, id)
    case Read(tid, id) => Fresh(w, tid) && id in w.store.payouts
    case Approve(tid, _) => HoldingOne(w, tid)
    case Reject(tid, _, _) => HoldingOne(w, tid)
    case Call(tid) => HoldingOne(w, tid) && tid !in w.wire
      && (w.tasks[tid].p.status == Approved || w.tasks[tid].p.status == Unresolved)
    case Receive(tid, _, _, _) => tid in w.wire && w.wire[tid].Underway?
    case Progress(key, fate) =>
      key in w.gateway.records && w.gateway.records[key].accepted
      && w.gateway.records[key].fate == InProgress && fate != InProgress
    case TakeAnswer(tid) => tid in w.tasks && w.tasks[tid].Calling? && tid in w.wire && w.wire[tid].Landed?
    case GiveUp(tid) => tid in w.tasks && w.tasks[tid].Calling?
    case RecordCreate(tid) => tid in w.tasks && w.tasks[tid].Answered?
    case Poll(tid, _) => HoldingOne(w, tid) && w.tasks[tid].p.status == Submitted
    case RecordPoll(tid) => tid in w.tasks && w.tasks[tid].Polled?
    case Drop(tid) => tid in w.tasks
  }

  function Done(w: World, tid: int, s: Store): World {
    w.(store := s, tasks := w.tasks - {tid})
  }

  /** Puts a create request for `p` on the wire, or fails on the spot when it has no decimal form. */
  function Send(w: World, tid: int, p: Payout): World {
    if !Iris.Sendable(p.facts.currency) then
      w.(tasks := w.tasks[tid := Answered(p, Err(Iris.UnusableAmount))])
    else
      var key := Iris.HeaderKey(p.facts.key);
      w.(tasks := w.tasks[tid := Calling(p)],
         wire := w.wire[tid := Underway(key, p.status == Unresolved, w.now)],
         firstSend := if key in w.firstSend then w.firstSend else w.firstSend[key := w.now])
  }

  /** Submit reads the row again and sends it if it is still awaiting submission; an unknown outcome
      is re-sent from the copy, while its window lasts. */
  function AfterCall(w: World, tid: int): (w': World)
    requires Tidy(w.store) && Enabled(w, Call(tid))
    ensures Tidy(w'.store)
  {
    var p := w.tasks[tid].p;
    if p.status == Approved then
      if p.facts.id in w.store.payouts && Submittable(w.store.payouts[p.facts.id])
      then Send(w, tid, w.store.payouts[p.facts.id])
      else Done(w, tid, w.store)
    else if Recoverable(p, w.now) then Send(w, tid, p)
    else Done(w, tid, Touched(w.store, p.facts.id, w.now))
  }

  function Next(w: World, step: Step): (w': World)
    requires Tidy(w.store) && Enabled(w, step)
    ensures Tidy(w'.store)
  {
    match step
    case Tick(elapsed) => w.(now := w.now + elapsed)
    case Request(limits, input, beneficiary, id) =>
      w.(store := Requesting(w.store, limits, input, beneficiary, id, w.now).0)
    case Draft(tid, limits, input, beneficiary) =>
      var v := Judge(w.store, limits, input, beneficiary, w.now);
      w.(tasks := w.tasks[tid := Drafted(input, v.destination, v.status)])
    case Insert(tid, id) =>
      var t := w.tasks[tid];
      Done(w, tid, Inserted(w.store, NewPayout(id, t.input, t.destination, t.status, w.now)).0)
    case Read(tid, id) => w.(tasks := w.tasks[tid := Holding(w.store.payouts[id])])
    case Approve(tid, admin) => Done(w, tid, Approving(w.store, w.tasks[tid].p, admin, w.now).0)
    case Reject(tid, admin, reason) => Done(w, tid, Rejecting(w.store, w.tasks[tid].p, admin, reason, w.now).0)
    case Call(tid) => AfterCall(w, tid)
    case Receive(tid, accept, reference, x) =>
      var key := w.wire[tid].key;
      w.(gateway := Arrive(w.gateway, key, w.now, accept, reference), wire := w.wire[tid := Landed(key, x)])
    case Progress(key, fate) =>
      w.(gateway := w.gateway.(records := w.gateway.records[key := w.gateway.records[key].(fate := fate)]))
    case TakeAnswer(tid) =>
      w.(tasks := w.tasks[tid := Answered(w.tasks[tid].p, Iris.CreateOutcome(w.wire[tid].answer))])
    case GiveUp(tid) =>
      w.(tasks := w.tasks[tid := Answered(w.tasks[tid].p, Err(Iris.OutcomeUnknown))])
    case RecordCreate(tid) =>
      Done(w, tid, CreateRecorded(w.store, w.tasks[tid].p, w.tasks[tid].outcome, w.now).0)
    case Poll(tid, x) =>
      var p := w.tasks[tid].p;
      if p.referenceNo.None? then Done(w, tid, Touched(w.store, p.facts.id, w.now))
      else w.(tasks := w.tasks[tid := Polled(p, Iris.GetPayout(x))])
    case RecordPoll(tid) =>
      Done(w, tid, PollRecorded(w.store, w.tasks[tid].p, w.tasks[tid].outcome, w.now).0)
    case Drop(tid) => Done(w, tid, w.store)
  }

  const EMPTY_STORE := Store(map[], [], map[], map[])

  function Start(now: Time): World {
    World(now, EMPTY_STORE, Gateway(map[], map[]), map[], map[], map[])
  }

  // ---- the timing assumption ----

  /** The latest moment at which a request may still reach the gateway: a first submission within the
      retention of the first send, a resend within the flight limit of the check that allowed it. */
  function Deadline(w: World, m: Message): Time
    requires m.Underway? && (!m.resend ==> m.key in w.firstSend)
  {
    if m.resend then m.checkedAt + FLIGHT_LIMIT else w.firstSend[m.key] + RETENTION
  }

  predicate Timely(w: World, step: Step)
    requires Tidy(w.store) && Enabled(w, step)
  {
    step.Receive? ==>
      var m := w.wire[step.tid];
      m.key in w.firstSend && w.now < Deadline(w, m)
  }

  // ---- runs ----

  /** The steps can be taken one after another. */
  predicate Allowed(w: World, steps: seq<Step>)
    requires Tidy(w.store)
    decreases |steps|
  {
    steps == [] || (Enabled(w, steps[0]) && Allowed(Next(w, steps[0]), steps[1..]))
  }

  function Run(w: World, steps: seq<Step>): (w': World)
    requires Tidy(w.store) && Allowed(w, steps)
    ensures Tidy(w'.store)
    decreases |steps|
  {
    if steps == [] then w else Run(Next(w, steps[0]), steps[1..])
  }

  /** Every request that reaches the gateway does so in time. */
  predicate InTime(w: World, steps: seq<Step>)
    requires Tidy(w.store) && Allowed(w, steps)
    decreases |steps|
  {
    steps == [] || (Timely(w, steps[0]) && InTime(Next(w, steps[0]), steps[1..]))
  }

  lemma {:induction false} RunJoins(w: World, before: seq<Step>, after: seq<Step>)
    requires Tidy(w.store) && Allowed(w, before) && Allowed(Run(w, before), after)
    ensures Allowed(w, before + after) && Run(w, before + after) == Run(Run(w, before), after)
    decreases |before|
  {
    hide Tidy, Enabled, Next;
    if before == [] {
      assert before + after == after;
    } else {
      assert (before + after)[0] == before[0] && (before + after)[1..] == before[1..] + after;
      RunJoins(Next(w, before[0]), before[1..], after);
    }
  }

  lemma RunsOne(w: World, step: Step)
    requires Tidy(w.store) && Enabled(w, step)
    ensures Allowed(w, [step]) && Run(w, [step]) == Next(w, step)
  {
    hide Tidy, Enabled, Next;
    assert [step][1..] == [];
  }
}
