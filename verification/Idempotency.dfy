/** Remembered requests: a key is claimed, the work is done by whoever claimed it, and everyone else
    is told what became of it. */
module Idempotency {
  import opened Wrappers

  /** Seconds. */
  type Time = int

  const TTL: Time := 24 * 3600

  /** Application, endpoint and key. */
  type Scope = (string, string, string)

  datatype Response = Response(paymentId: string, status: int, body: string)

  datatype State = InProgress | Completed(response: Response)

  datatype Record = Record(id: string, hash: string, state: State, expiresAt: Time)

  datatype Verdict =
    | Owner
    | Replay(response: Response)
    | Conflict
    | Busy
    | Lost

  type Rows = map<Scope, Record>

  // ---- the statements ----

  /** The insert that also replaces a claim whose time has run out. */
  function Inserted(rows: Rows, scope: Scope, id: string, hash: string, now: Time): Rows {
    if scope in rows && now <= rows[scope].expiresAt then rows
    else rows[scope := Record(id, hash, InProgress, now + TTL)]
  }

  function ClassifyExisting(existing: Record, hash: string): Verdict {
    if existing.hash != hash then Conflict
    else
      match existing.state
      case Completed(response) => Replay(response)
      case InProgress => Busy
  }

  /** The read that follows the insert. */
  function ReadBack(rows: Rows, scope: Scope, id: string, hash: string): Verdict {
    if scope !in rows then Lost
    else if rows[scope].id == id then Owner
    else ClassifyExisting(rows[scope], hash)
  }

  function CompletedRows(rows: Rows, scope: Scope, response: Response): Rows {
    if scope in rows && rows[scope].state.InProgress? then rows[scope := rows[scope].(state := Completed(response))] else rows
  }

  function ReleasedRows(rows: Rows, scope: Scope): Rows {
    if scope in rows && rows[scope].state.InProgress? then rows - {scope} else rows
  }

  function PrunedRows(rows: Rows, now: Time): Rows {
    map scope | scope in rows && now <= rows[scope].expiresAt :: rows[scope]
  }

  class Store {
    var rows: Rows

    constructor ()
      ensures rows == map[]
    {
      rows := map[];
    }

    method Claim(scope: Scope, id: string, hash: string, now: Time) returns (v: Verdict)
      modifies this
      ensures rows == Inserted(old(rows), scope, id, hash, now)
      ensures v == ReadBack(rows, scope, id, hash)
      ensures (forall s :: s in old(rows) ==> old(rows)[s].id != id) ==>
        (v.Owner? <==> scope !in old(rows) || old(rows)[scope].expiresAt < now)
    {
      if scope !in rows || rows[scope].expiresAt < now {
        rows := rows[scope := Record(id, hash, InProgress, now + TTL)];
      }
      var existing := rows[scope];
      if existing.id == id {
        return Owner;
      }
      return ClassifyExisting(existing, hash);
    }

    method Complete(scope: Scope, response: Response)
      modifies this
      ensures rows == CompletedRows(old(rows), scope, response)
    {
      if scope in rows && rows[scope].state.InProgress? {
        rows := rows[scope := rows[scope].(state := Completed(response))];
      }
    }

    method Release(scope: Scope)
      modifies this
      ensures rows == ReleasedRows(old(rows), scope)
    {
      if scope in rows && rows[scope].state.InProgress? {
        rows := rows - {scope};
      }
    }

    method Prune(now: Time)
      modifies this
      ensures rows == PrunedRows(old(rows), now)
      ensures forall scope :: scope in old(rows) && now <= old(rows)[scope].expiresAt <==> scope in rows
      ensures forall scope :: scope in rows ==> rows[scope] == old(rows)[scope]
    {
      rows := map scope | scope in rows && now <= rows[scope].expiresAt :: rows[scope];
    }
  }

  /** What the caller is told. */
  datatype Reply = Answered(response: Response) | Refused(verdict: Verdict) | WorkFailed

  /** One request without interference from others: claimed, worked on by the owner only, and then
      completed or released. */
  function Handled(rows: Rows, scope: Option<Scope>, id: string, hash: string, work: Option<Response>, now: Time): (Rows, Reply) {
    if scope.None? then (rows, if work.Some? then Answered(work.value) else WorkFailed)
    else
      var claimed := Inserted(rows, scope.value, id, hash, now);
      match ReadBack(claimed, scope.value, id, hash)
      case Owner =>
        if work.Some? then (CompletedRows(claimed, scope.value, work.value), Answered(work.value))
        else (ReleasedRows(claimed, scope.value), WorkFailed)
      case Replay(response) => (claimed, Answered(response))
      case v => (claimed, Refused(v))
  }

  class Handler {
    const store: Store

    constructor (store: Store)
      ensures this.store == store
    {
      this.store := store;
    }

    /** `work` is what creating the payment would come to. */
    method CreatePayment(scope: Option<Scope>, id: string, hash: string, work: Option<Response>, now: Time) returns (r: Reply)
      modifies store
      ensures (store.rows, r) == Handled(old(store.rows), scope, id, hash, work, now)
    {
      if scope.Some? {
        var v := store.Claim(scope.value, id, hash, now);
        if v.Replay? {
          return Answered(v.response);
        }
        if v != Owner {
          return Refused(v);
        }
      }
      if work.None? {
        if scope.Some? {
          store.Release(scope.value);
        }
        return WorkFailed;
      }
      if scope.Some? {
        store.Complete(scope.value, work.value);
      }
      return Answered(work.value);
    }
  }

  /** How a request is answered, whoever else holds its key.  If nobody does, or did so more than a day ago,
      the work is done and its answer kept for a day, or nothing is kept of a failure; otherwise nothing
      changes: another request under the key is a conflict, the same one gets the answer there is, or is told
      that it is being worked on. */
  lemma RequestIsAnswered(rows: Rows, scope: Scope, id: string, hash: string, work: Option<Response>, now: Time)
    requires scope in rows ==> rows[scope].id != id
    ensures var (rows', r) := Handled(rows, Some(scope), id, hash, work, now);
      if scope !in rows || rows[scope].expiresAt < now then
        if work.Some? then
          r == Answered(work.value) && rows' == rows[scope := Record(id, hash, Completed(work.value), now + 24 * 60 * 60)]
        else r == WorkFailed && rows' == rows - {scope}
      else
        && rows' == rows
        && (r == Refused(Conflict) <==> rows[scope].hash != hash)
        && (r == Refused(Busy) <==> rows[scope].hash == hash && rows[scope].state == InProgress)
        && (rows[scope].hash == hash && rows[scope].state.Completed? ==> r == Answered(rows[scope].state.response))
    ensures Handled(rows, None, id, hash, work, now) == (rows, if work.Some? then Answered(work.value) else WorkFailed)
  {
    var claimed := Inserted(rows, scope, id, hash, now);
    assert claimed - {scope} == rows - {scope};
  }

  /** A repeated request is answered with the first answer until the key is forgotten, and a failed one
      leaves no trace. */
  lemma RepeatIsReplayed(rows: Rows, scope: Scope, id: string, later: string, hash: string, work: Option<Response>,
                         again: Option<Response>, now: Time, laterOn: Time)
    requires scope !in rows && id != later && now <= laterOn <= now + TTL
    ensures var (rows1, r1) := Handled(rows, Some(scope), id, hash, work, now);
      match work
      case Some(response) => r1 == Answered(response) && Handled(rows1, Some(scope), later, hash, again, laterOn) == (rows1, r1)
      case None => rows1 == rows && r1 == WorkFailed
  {
    assert work.None? ==> Handled(rows, Some(scope), id, hash, work, now).0 == rows;
  }

  // ---- requests in flight together ----

  datatype Request =
    | Claiming(scope: Scope, hash: string, id: string)
    | Owning(scope: Scope, hash: string, id: string, expiresAt: Time)
    | Created(scope: Scope, hash: string, id: string, expiresAt: Time, response: Response)
    | Ended(scope: Scope, hash: string, reply: Reply)

  /** `done` keeps every payment created, with the request it was created for. */
  datatype World = World(now: Time, rows: Rows, requests: map<int, Request>, used: set<string>, done: set<(Scope, string, Response)>)

  datatype Step =
    | Tick(elapsed: nat)
    | Claim(tid: int, scope: Scope, hash: string, id: string)
    | Read(tid: int)
    | Create(tid: int, response: Response)
    | Fail(tid: int)
    | Complete(tid: int)
    | Crash(tid: int)
    | Prune

  predicate Enabled(w: World, step: Step) {
    match step
    case Tick(_) => true
    case Claim(tid, _, _, id) => tid !in w.requests && id !in w.used
    case Read(tid) => tid in w.requests && w.requests[tid].Claiming?
    case Create(tid, _) => tid in w.requests && w.requests[tid].Owning?
    case Fail(tid) => tid in w.requests && w.requests[tid].Owning?
    case Complete(tid) => tid in w.requests && w.requests[tid].Created?
    case Crash(tid) => tid in w.requests && !w.requests[tid].Ended?
    case Prune => true
  }

  function AfterRead(rows: Rows, r: Request): Request
    requires r.Claiming?
  {
    match ReadBack(rows, r.scope, r.id, r.hash)
    case Owner => Owning(r.scope, r.hash, r.id, rows[r.scope].expiresAt)
    case Replay(response) => Ended(r.scope, r.hash, Answered(response))
    case v => Ended(r.scope, r.hash, Refused(v))
  }

  function Next(w: World, step: Step): World
    requires Enabled(w, step)
  {
    match step
    case Tick(elapsed) => w.(now := w.now + elapsed)
    case Claim(tid, scope, hash, id) =>
      w.(rows := Inserted(w.rows, scope, id, hash, w.now), requests := w.requests[tid := Claiming(scope, hash, id)],
         used := w.used + {id})
    case Read(tid) => w.(requests := w.requests[tid := AfterRead(w.rows, w.requests[tid])])
    case Create(tid, response) =>
      var r := w.requests[tid];
      w.(requests := w.requests[tid := Created(r.scope, r.hash, r.id, r.expiresAt, response)],
         done := w.done + {(r.scope, r.hash, response)})
    case Fail(tid) =>
      var r := w.requests[tid];
      w.(rows := ReleasedRows(w.rows, r.scope), requests := w.requests[tid := Ended(r.scope, r.hash, WorkFailed)])
    case Complete(tid) =>
      var r := w.requests[tid];
      w.(rows := CompletedRows(w.rows, r.scope, r.response), requests := w.requests[tid := Ended(r.scope, r.hash, Answered(r.response))])
    case Crash(tid) => w.(requests := w.requests - {tid})
    case Prune => w.(rows := PrunedRows(w.rows, w.now))
  }

  function Start(now: Time): World { World(now, map[], map[], {}, {}) }

  predicate Allowed(w: World, steps: seq<Step>)
    decreases |steps|
  {
    steps == [] || (Enabled(w, steps[0]) && Allowed(Next(w, steps[0]), steps[1..]))
  }

  function Run(w: World, steps: seq<Step>): World
    requires Allowed(w, steps)
    decreases |steps|
  {
    if steps == [] then w else Run(Next(w, steps[0]), steps[1..])
  }

  predicate Works(r: Request) { r.Owning? || r.Created? }

  /** Work is over before its claim runs out. */
  predicate InTime(w: World) {
    forall tid :: tid in w.requests && Works(w.requests[tid]) ==> w.now <= w.requests[tid].expiresAt
  }

  predicate AllInTime(w: World, steps: seq<Step>)
    requires Allowed(w, steps)
    decreases |steps|
  {
    InTime(w) && (steps == [] || AllInTime(Next(w, steps[0]), steps[1..]))
  }

  /** A claim still belongs to whoever works on it, and is untouched while its maker has yet to read it. */
  predicate Holds(r: Request, rows: Rows) {
    (Works(r) ==> r.scope in rows && rows[r.scope] == Record(r.id, r.hash, InProgress, r.expiresAt))
    && (r.Claiming? && r.scope in rows && rows[r.scope].id == r.id ==>
          rows[r.scope].hash == r.hash && rows[r.scope].state == InProgress)
  }

  /** What a request may have in hand. */
  predicate Honest(r: Request, done: set<(Scope, string, Response)>) {
    (r.Created? ==> (r.scope, r.hash, r.response) in done)
    && (r.Ended? && r.reply.Answered? ==> (r.scope, r.hash, r.reply.response) in done)
  }

  predicate Traceable(scope: Scope, record: Record, done: set<(Scope, string, Response)>) {
    record.state.Completed? ==> (scope, record.hash, record.state.response) in done
  }

  function IdOf(r: Request): Option<string> {
    if r.Ended? then None else Some(r.id)
  }

  ghost predicate Safe(w: World) {
    && (forall tid :: tid in w.requests ==> Holds(w.requests[tid], w.rows) && Honest(w.requests[tid], w.done))
    && (forall scope :: scope in w.rows ==> Traceable(scope, w.rows[scope], w.done) && w.rows[scope].id in w.used)
    && (forall tid :: tid in w.requests && IdOf(w.requests[tid]).Some? ==> IdOf(w.requests[tid]).value in w.used)
    && (forall tid, other :: tid in w.requests && other in w.requests && tid != other ==>
          IdOf(w.requests[tid]).None? || IdOf(w.requests[tid]) != IdOf(w.requests[other]))
  }

  lemma NextSafe(w: World, step: Step)
    requires Safe(w) && InTime(w) && Enabled(w, step)
    ensures Safe(Next(w, step))
  {
    match step
    case Tick(_) =>
    case Claim(_, _, _, _) =>
    case Read(_) =>
    case Create(_, _) =>
    case Fail(_) =>
    case Complete(_) =>
    case Crash(_) =>
    case Prune =>
  }

  lemma {:induction false} RunSafe(w: World, steps: seq<Step>)
    requires Safe(w) && Allowed(w, steps) && AllInTime(w, steps)
    ensures Safe(Run(w, steps)) && InTime(Run(w, steps))
    decreases |steps|
  {
    hide Enabled, Next, Safe, InTime;
    if steps != [] {
      NextSafe(w, steps[0]);
      RunSafe(Next(w, steps[0]), steps[1..]);
    }
  }

  // ---- exactly when every answer is right ----

  ghost predicate Traced(w: World) {
    (forall tid :: tid in w.requests ==> Honest(w.requests[tid], w.done))
    && forall scope :: scope in w.rows ==> Traceable(scope, w.rows[scope], w.done)
  }

  /** A completion that lands on somebody else's claim, for a request it was not made for. */
  predicate Misdirected(w: World, step: Step)
    requires Enabled(w, step)
  {
    step.Complete? &&
    var r := w.requests[step.tid];
    r.scope in w.rows && w.rows[r.scope].state.InProgress? && (r.scope, w.rows[r.scope].hash, r.response) !in w.done
  }

  /** Nothing but a misdirected completion makes an answer wrong, and each one does. */
  lemma TracedExactly(w: World, step: Step)
    requires Traced(w) && Enabled(w, step)
    ensures Traced(Next(w, step)) <==> !Misdirected(w, step)
    ensures Misdirected(w, step) ==> w.rows[w.requests[step.tid].scope].hash != w.requests[step.tid].hash
  {
    match step
    case Tick(_) =>
    case Claim(_, _, _, _) =>
    case Read(_) =>
    case Create(_, _) =>
    case Fail(_) =>
    case Complete(tid) =>
      var r := w.requests[tid];
      assert Honest(r, w.done);
      if Misdirected(w, step) {
        assert !Traceable(r.scope, Next(w, step).rows[r.scope], w.done);
      }
    case Crash(_) =>
    case Prune =>
  }

  ghost predicate AlwaysTraced(w: World, steps: seq<Step>)
    requires Allowed(w, steps)
    decreases |steps|
  {
    Traced(w) && (steps == [] || AlwaysTraced(Next(w, steps[0]), steps[1..]))
  }

  predicate NoneMisdirected(w: World, steps: seq<Step>)
    requires Allowed(w, steps)
    decreases |steps|
  {
    steps == [] || (!Misdirected(w, steps[0]) && NoneMisdirected(Next(w, steps[0]), steps[1..]))
  }

  lemma {:induction false} TracedRun(w: World, steps: seq<Step>)
    requires Traced(w) && Allowed(w, steps)
    ensures AlwaysTraced(w, steps) <==> NoneMisdirected(w, steps)
    decreases |steps|
  {
    hide Enabled, Next, Traced, Misdirected;
    if steps != [] {
      TracedExactly(w, steps[0]);
      if !Misdirected(w, steps[0]) {
        TracedRun(Next(w, steps[0]), steps[1..]);
      } else {
        Untraced(Next(w, steps[0]), steps[1..]);
      }
    }
  }

  lemma Untraced(w: World, steps: seq<Step>)
    requires Allowed(w, steps) && !Traced(w)
    ensures !AlwaysTraced(w, steps)
  {
  }

  /** However claims interleave and whatever the timing: over a whole run every answer given or on record
      was created for the same key and the same request if and only if no completion is misdirected. */
  lemma AnswersAreForTheSameRequest(start: Time, steps: seq<Step>)
    requires Allowed(Start(start), steps)
    ensures AlwaysTraced(Start(start), steps) <==> NoneMisdirected(Start(start), steps)
    ensures NoneMisdirected(Start(start), steps) ==> Traced(Run(Start(start), steps))
  {
    TracedRun(Start(start), steps);
    if NoneMisdirected(Start(start), steps) {
      TracedAtTheEnd(Start(start), steps);
    }
  }

  lemma {:induction false} TracedAtTheEnd(w: World, steps: seq<Step>)
    requires Allowed(w, steps) && AlwaysTraced(w, steps)
    ensures Traced(Run(w, steps))
    decreases |steps|
  {
    hide Enabled, Next, Traced;
    if steps != [] {
      TracedAtTheEnd(Next(w, steps[0]), steps[1..]);
    }
  }

  /** A misdirected completion is read: whoever repeats the request that holds the claim, while it lasts,
      is answered with what was created for another. */
  lemma MisdirectedIsRead(w: World, step: Step, tid: int, id: string)
    requires Traced(w) && Enabled(w, step) && Misdirected(w, step) && tid !in w.requests && id !in w.used
    requires var record := w.rows[w.requests[step.tid].scope]; w.now <= record.expiresAt && record.id != id
    ensures var r := w.requests[step.tid]; var hash := w.rows[r.scope].hash;
      var w1 := Next(w, step);
      && Enabled(w1, Claim(tid, r.scope, hash, id))
      && var w2 := Next(w1, Claim(tid, r.scope, hash, id));
      && Enabled(w2, Read(tid))
      && Next(w2, Read(tid)).requests[tid] == Ended(r.scope, hash, Answered(r.response))
      && (r.scope, hash, r.response) !in Next(w2, Read(tid)).done
  {
  }

  // ---- exactly when one works at a time ----

  ghost predicate UniqueIds(w: World) {
    && (forall scope :: scope in w.rows ==> w.rows[scope].id in w.used)
    && (forall tid :: tid in w.requests && IdOf(w.requests[tid]).Some? ==> IdOf(w.requests[tid]).value in w.used)
    && (forall tid, other :: tid in w.requests && other in w.requests && tid != other ==>
          IdOf(w.requests[tid]).None? || IdOf(w.requests[tid]) != IdOf(w.requests[other]))
  }

  ghost predicate Held(w: World) {
    forall tid :: tid in w.requests ==> Holds(w.requests[tid], w.rows)
  }

  predicate WorksOn(w: World, tid: int, scope: Scope) {
    tid in w.requests && Works(w.requests[tid]) && w.requests[tid].scope == scope
  }

  predicate RanOut(w: World, scope: Scope) { scope in w.rows && w.rows[scope].expiresAt < w.now }

  /** The claim of a request still at work is taken over by another, or pruned away. */
  ghost predicate Displaces(w: World, step: Step) {
    match step
    case Claim(_, scope, _, _) => RanOut(w, scope) && exists tid :: WorksOn(w, tid, scope)
    case Prune => exists tid :: tid in w.requests && Works(w.requests[tid]) && RanOut(w, w.requests[tid].scope)
    case _ => false
  }

  lemma NextUnique(w: World, step: Step)
    requires UniqueIds(w) && Enabled(w, step)
    ensures UniqueIds(Next(w, step))
  {
    match step
    case Tick(_) =>
    case Claim(_, _, _, _) =>
    case Read(_) =>
    case Create(_, _) =>
    case Fail(_) =>
    case Complete(_) =>
    case Crash(_) =>
    case Prune =>
  }

  lemma ClaimHeld(w: World, step: Step)
    requires UniqueIds(w) && Held(w) && Enabled(w, step) && step.Claim?
    ensures Held(Next(w, step)) <==> !Displaces(w, step)
  {
    var w', scope := Next(w, step), step.scope;
    if Displaces(w, step) {
      var tid :| WorksOn(w, tid, scope);
      assert IdOf(w.requests[tid]).value in w.used;
      assert w'.requests[tid] == w.requests[tid] && w'.rows[scope].id == step.id;
      assert !Holds(w'.requests[tid], w'.rows);
    } else {
      forall tid | tid in w'.requests ensures Holds(w'.requests[tid], w'.rows) {
        if tid != step.tid {
          assert Holds(w.requests[tid], w.rows);
          assert RanOut(w, scope) ==> !WorksOn(w, tid, scope);
          assert IdOf(w.requests[tid]).Some? ==> IdOf(w.requests[tid]).value in w.used;
        }
      }
    }
  }

  /** While all claims are held, a step loses one exactly by taking it over or pruning it. */
  lemma HeldExactly(w: World, step: Step)
    requires UniqueIds(w) && Held(w) && Enabled(w, step)
    ensures Held(Next(w, step)) <==> !Displaces(w, step)
  {
    var w' := Next(w, step);
    match step
    case Tick(_) =>
    case Claim(_, _, _, _) => ClaimHeld(w, step);
    case Read(_) =>
    case Create(_, _) =>
    case Fail(_) =>
    case Complete(_) =>
    case Crash(_) =>
    case Prune =>
      if tid :| tid in w.requests && Works(w.requests[tid]) && RanOut(w, w.requests[tid].scope) {
        assert !Holds(w'.requests[tid], w'.rows);
      }
  }

  ghost predicate AlwaysHeld(w: World, steps: seq<Step>)
    requires Allowed(w, steps)
    decreases |steps|
  {
    Held(w) && (steps == [] || AlwaysHeld(Next(w, steps[0]), steps[1..]))
  }

  ghost predicate NoneDisplaced(w: World, steps: seq<Step>)
    requires Allowed(w, steps)
    decreases |steps|
  {
    steps == [] || (!Displaces(w, steps[0]) && NoneDisplaced(Next(w, steps[0]), steps[1..]))
  }

  lemma {:induction false} HeldRun(w: World, steps: seq<Step>)
    requires UniqueIds(w) && Held(w) && Allowed(w, steps)
    ensures AlwaysHeld(w, steps) <==> NoneDisplaced(w, steps)
    ensures NoneDisplaced(w, steps) ==> Held(Run(w, steps))
    decreases |steps|
  {
    hide Enabled, Next, Held, Displaces, UniqueIds;
    if steps != [] {
      HeldExactly(w, steps[0]);
      NextUnique(w, steps[0]);
      if !Displaces(w, steps[0]) {
        HeldRun(Next(w, steps[0]), steps[1..]);
      } else {
        Unheld(Next(w, steps[0]), steps[1..]);
      }
    }
  }

  lemma Unheld(w: World, steps: seq<Step>)
    requires Allowed(w, steps) && !Held(w)
    ensures !AlwaysHeld(w, steps)
  {
  }

  /** Over a whole run every request at work keeps its claim if and only if none is taken over or pruned
      while it works. */
  lemma ClaimsAreKept(start: Time, steps: seq<Step>)
    requires Allowed(Start(start), steps)
    ensures AlwaysHeld(Start(start), steps) <==> NoneDisplaced(Start(start), steps)
  {
    HeldRun(Start(start), steps);
  }

  /** And then, however the two statements of the claims interleave, at most one request works under a
      key at a time. */
  lemma OneOwner(start: Time, steps: seq<Step>, tid: int, other: int, scope: Scope)
    requires Allowed(Start(start), steps) && NoneDisplaced(Start(start), steps)
    requires var w := Run(Start(start), steps); WorksOn(w, tid, scope) && WorksOn(w, other, scope)
    ensures tid == other
  {
    HeldRun(Start(start), steps);
    RunUnique(Start(start), steps);
    var w := Run(Start(start), steps);
    assert Holds(w.requests[tid], w.rows) && Holds(w.requests[other], w.rows);
    hide Run, Allowed;
  }

  lemma {:induction false} RunUnique(w: World, steps: seq<Step>)
    requires UniqueIds(w) && Allowed(w, steps)
    ensures UniqueIds(Run(w, steps))
    decreases |steps|
  {
    hide Enabled, Next, UniqueIds;
    if steps != [] {
      NextUnique(w, steps[0]);
      RunUnique(Next(w, steps[0]), steps[1..]);
    }
  }

  ghost predicate TwoAtWork(w: World) {
    exists scope, tid, other :: tid != other && WorksOn(w, tid, scope) && WorksOn(w, other, scope)
  }

  /** A request reads that the key is its own while another, whose claim is gone, is still at work. */
  ghost predicate Joins(w: World, step: Step) {
    step.Read? && step.tid in w.requests &&
    var r := w.requests[step.tid];
    r.Claiming? && ReadBack(w.rows, r.scope, r.id, r.hash) == Owner
    && exists other :: WorksOn(w, other, r.scope) && w.rows[r.scope].id != w.requests[other].id
  }

  /** A second worker appears in exactly this way, whatever the timing. */
  lemma SecondWorkerExactly(w: World, step: Step)
    requires UniqueIds(w) && !TwoAtWork(w) && Enabled(w, step)
    ensures TwoAtWork(Next(w, step)) <==> Joins(w, step)
  {
    var w' := Next(w, step);
    if Joins(w, step) {
      var r := w.requests[step.tid];
      var other :| WorksOn(w, other, r.scope) && w.rows[r.scope].id != w.requests[other].id;
      assert WorksOn(w', step.tid, r.scope) && WorksOn(w', other, r.scope);
    }
    if TwoAtWork(w') {
      var scope, tid, other :| tid != other && WorksOn(w', tid, scope) && WorksOn(w', other, scope);
      OneWasNew(w, step, scope, tid, other);
    }
  }

  lemma OneWasNew(w: World, step: Step, scope: Scope, tid: int, other: int)
    requires UniqueIds(w) && !TwoAtWork(w) && Enabled(w, step) && tid != other
    requires WorksOn(Next(w, step), tid, scope) && WorksOn(Next(w, step), other, scope)
    ensures Joins(w, step)
  {
    if WorksOn(w, other, scope) {
      NewWorker(w, step, scope, tid);
      assert w.rows[scope].id != w.requests[other].id;
    } else {
      NewWorker(w, step, scope, other);
      assert WorksOn(w, tid, scope);
      assert w.rows[scope].id != w.requests[tid].id;
    }
  }

  lemma NewWorker(w: World, step: Step, scope: Scope, tid: int)
    requires Enabled(w, step) && WorksOn(Next(w, step), tid, scope) && !WorksOn(w, tid, scope)
    ensures step == Read(tid) && w.requests[tid].scope == scope
    ensures ReadBack(w.rows, scope, w.requests[tid].id, w.requests[tid].hash) == Owner
  {
  }

  /** Losing a claim is enough for it: the one that took it over, or the next to claim what was pruned,
      joins the worker that lost it. */
  lemma DisplacedIsJoined(w: World, step: Step, tid: int, scope: Scope, next: int, hash: string, id: string)
    requires UniqueIds(w) && Enabled(w, step) && WorksOn(w, tid, scope) && RanOut(w, scope)
    requires next !in w.requests && id !in w.used
    requires step == Prune || step == Claim(next, scope, hash, id)
    ensures var w1 := Next(w, step);
      && (step.Prune? ==> Enabled(w1, Claim(next, scope, hash, id)))
      && var w2 := if step.Prune? then Next(w1, Claim(next, scope, hash, id)) else w1;
      && Enabled(w2, Read(next)) && WorksOn(Next(w2, Read(next)), tid, scope) && WorksOn(Next(w2, Read(next)), next, scope)
  {
  }

  // ---- being in time is enough ----

  lemma {:induction false} TimeIsEnough(w: World, steps: seq<Step>)
    requires Safe(w) && Allowed(w, steps) && AllInTime(w, steps)
    ensures NoneMisdirected(w, steps) && NoneDisplaced(w, steps)
    decreases |steps|
  {
    if steps != [] {
      NextSafe(w, steps[0]);
      InTimeKeeps(w, steps[0]);
      hide Enabled, Next, Safe, InTime, Misdirected, Displaces;
      TimeIsEnough(Next(w, steps[0]), steps[1..]);
    }
  }

  lemma InTimeKeeps(w: World, step: Step)
    requires Safe(w) && InTime(w) && Enabled(w, step)
    ensures !Misdirected(w, step) && !Displaces(w, step)
  {
    forall tid | tid in w.requests && Works(w.requests[tid]) ensures !RanOut(w, w.requests[tid].scope) {
      assert Holds(w.requests[tid], w.rows);
    }
  }

  /** When every request is done with its work before its claim runs out, no completion is misdirected
      and no claim lost. */
  lemma WorkInTimeIsEnough(start: Time, steps: seq<Step>)
    requires Allowed(Start(start), steps) && AllInTime(Start(start), steps)
    ensures AlwaysTraced(Start(start), steps) && AlwaysHeld(Start(start), steps)
  {
    TimeIsEnough(Start(start), steps);
    AnswersAreForTheSameRequest(start, steps);
    ClaimsAreKept(start, steps);
  }

  /** Once completed, a key keeps its answer until it runs out, whatever else happens. */
  lemma {:induction false} CompletedStays(w: World, steps: seq<Step>, scope: Scope)
    requires Allowed(w, steps) && scope in w.rows && w.rows[scope].state.Completed?
    requires Run(w, steps).now <= w.rows[scope].expiresAt
    ensures scope in Run(w, steps).rows && Run(w, steps).rows[scope] == w.rows[scope]
    decreases |steps|
  {
    if steps != [] {
      TimePasses(Next(w, steps[0]), steps[1..]);
      CompletedStays(Next(w, steps[0]), steps[1..], scope);
    }
  }

  /** While it does, nobody works under the key again, and every further request is told the answer or
      that the key belongs to a different request. */
  lemma CompletedIsNotRedone(w: World, scope: Scope, tid: int)
    requires Safe(w) && scope in w.rows && w.rows[scope].state.Completed? && tid in w.requests && w.requests[tid].scope == scope
    ensures !Works(w.requests[tid])
    ensures w.requests[tid].Claiming? ==>
      AfterRead(w.rows, w.requests[tid]).reply
      == if w.requests[tid].hash == w.rows[scope].hash then Answered(w.rows[scope].state.response) else Refused(Conflict)
  {
    assert Holds(w.requests[tid], w.rows);
  }

  lemma {:induction false} TimePasses(w: World, steps: seq<Step>)
    requires Allowed(w, steps)
    ensures w.now <= Run(w, steps).now
    decreases |steps|
  {
    if steps != [] {
      TimePasses(Next(w, steps[0]), steps[1..]);
    }
  }

  // ---- why work must be over in time ----

  /** The first request is still at work when its claim runs out and a different request takes the key;
      completing the first then answers the second's repetition. */
  function Overtaken(scope: Scope, first: string, second: string, response: Response): seq<Step> {
    [Claim(1, scope, first, "a"), Read(1), Tick(TTL + 1), Claim(2, scope, second, "b"), Read(2),
     Create(1, response), Complete(1), Claim(3, scope, second, "c"), Read(3)]
  }

  lemma TakenOver(scope: Scope, first: string, second: string, response: Response, start: Time) returns (w: World)
    ensures var all := Overtaken(scope, first, second, response);
      forall rest :: rest == all[5..] && Allowed(w, rest) ==> Allowed(Start(start), all) && Run(Start(start), all) == Run(w, rest)
    ensures w == World(start + TTL + 1, map[scope := Record("b", second, InProgress, start + TTL + 1 + TTL)],
                       map[1 := Owning(scope, first, "a", start + TTL), 2 := Owning(scope, second, "b", start + TTL + 1 + TTL)],
                       {"a", "b"}, {})
  {
    var steps := Overtaken(scope, first, second, response);
    assert "a" != "b";
    var w0 := Start(start);
    var w1 := Next(w0, steps[0]);
    var w2 := Next(w1, steps[1]);
    var w3 := Next(w2, steps[2]);
    var w4 := Next(w3, steps[3]);
    w := Next(w4, steps[4]);
    assert w.requests == map[1 := Owning(scope, first, "a", start + TTL), 2 := Owning(scope, second, "b", start + TTL + 1 + TTL)];
    hide Next, Enabled;
    forall rest | rest == steps[5..] && Allowed(w, rest) ensures Allowed(w0, steps) && Run(w0, steps) == Run(w, rest) {
      RunOne(w4, steps[4..]);
      RunOne(w3, steps[3..]);
      RunOne(w2, steps[2..]);
      RunOne(w1, steps[1..]);
      RunOne(w0, steps[0..]);
    }
  }

  /** A replay can then answer one request with what was created for another. */
  lemma OvertakenAnswersWrongly(scope: Scope, first: string, second: string, response: Response, start: Time)
    requires first != second
    ensures Allowed(Start(start), Overtaken(scope, first, second, response))
    ensures var w := Run(Start(start), Overtaken(scope, first, second, response));
      3 in w.requests && w.requests[3] == Ended(scope, second, Answered(response)) && (scope, second, response) !in w.done
  {
    var w5 := TakenOver(scope, first, second, response, start);
    var steps := Overtaken(scope, first, second, response);
    assert "b" != "c" && "a" != "c";
    var w6 := Next(w5, steps[5]);
    var w7 := Next(w6, steps[6]);
    var w8 := Next(w7, steps[7]);
    RunOne(w8, steps[8..]);
    RunOne(w7, steps[7..]);
    RunOne(w6, steps[6..]);
    RunOne(w5, steps[5..]);
  }

  lemma RunOne(w: World, steps: seq<Step>)
    requires steps != [] && Enabled(w, steps[0]) && Allowed(Next(w, steps[0]), steps[1..])
    ensures Allowed(w, steps) && Run(w, steps) == Run(Next(w, steps[0]), steps[1..])
  {
  }
}
