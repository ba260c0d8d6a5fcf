/** What the gateway returned, which is not always what was recorded: an answer can be lost, and a refund
    whose answer was lost is recorded as failed. */
module RefundReturns {
  import opened Wrappers
  import PaymentStatuses
  import opened Payments
  import opened Multiples
  import opened Refunds

  /** `books` is the gateway's side of the same refunds, each under the key it was sent with: pending until
      the gateway decides, succeeded once it returned the money, failed if it refused. */
  datatype World = World(l: Ledger, books: seq<Refund>)

  /** The refunds as the gateway has them. */
  function Books(w: World): Ledger { Ledger(w.l.payment, w.books) }

  function ReturnedTotal(w: World): int { Total(w.books, Succeeded) }

  function RecordedTotal(w: World): int { Total(w.l.refunds, Succeeded) }

  /** What was returned, and what may yet be. */
  function Exposure(w: World): int { Committed(Books(w)) }

  /** The gateway makes a refund or refuses it, each at most once: a key is the gateway's own protection
      against a request that reaches it twice.  The service acts meanwhile. */
  datatype Step = Return(i: nat) | Refuse(i: nat) | Serve(step: Refunds.Step)

  /** An answer that a refund was made is true.  An error may mean anything. */
  predicate Enabled(w: World, step: Step) {
    match step
    case Return(i) => Refunds.Enabled(Books(w), Made(i))
    case Refuse(i) => Refunds.Enabled(Books(w), Errored(i))
    case Serve(s) => Refunds.Enabled(w.l, s) && (s.Made? ==> s.i < |w.books| && w.books[s.i].status == Succeeded)
  }

  predicate Grants(w: World, step: Step) {
    step.Serve? && step.step.Reserve? && Reserved(w.l, step.step.input).Ok?
  }

  function Next(w: World, step: Step): World
    requires Enabled(w, step)
  {
    match step
    case Return(i) => w.(books := Refunds.Next(Books(w), Made(i)).refunds)
    case Refuse(i) => w.(books := Refunds.Next(Books(w), Errored(i)).refunds)
    case Serve(s) =>
      var l := Refunds.Next(w.l, s);
      World(l, if Grants(w, step) then w.books + [l.refunds[|l.refunds| - 1]] else w.books)
  }

  predicate Allowed(w: World, steps: seq<Step>)
    decreases |steps|
  {
    steps == [] || (Enabled(w, steps[0]) && Allowed(Next(w, steps[0]), steps[1..]))
  }

  function Run(w: World, steps: seq<Step>): World
    requires Allowed(w, steps)
    decreases |steps|
  {
    if steps == [] then w else Run(Next(w, steps[0]), steps[1..])
  }

  function Start(payment: Payment): World { World(Ledger(payment, []), []) }

  // ---- what every step keeps ----

  /** One refund on both sides. */
  predicate Same(r: Refund, b: Refund) { r.key == b.key && r.amount == b.amount && (r.status == Succeeded ==> b.status == Succeeded) }

  ghost predicate Matched(refunds: seq<Refund>, books: seq<Refund>) {
    |refunds| == |books| && forall i :: 0 <= i < |refunds| ==> Same(refunds[i], books[i])
  }

  ghost predicate Sane(w: World) {
    Sound(w.l.refunds, w.l.payment.amount) && Sound(w.books, w.l.payment.amount) && Matched(w.l.refunds, w.books)
  }

  lemma NextSane(w: World, step: Step)
    requires Sane(w) && Enabled(w, step)
    ensures Sane(Next(w, step)) && Next(w, step).l.payment.amount == w.l.payment.amount
  {
    hide Total, Reserved;
    match step
    case Return(i) => Refunds.NextSound(Books(w), Made(i));
    case Refuse(i) => Refunds.NextSound(Books(w), Errored(i));
    case Serve(s) => Refunds.NextSound(w.l, s); ReservedAppends(w.l, s);
  }

  lemma ReservedAppends(l: Ledger, s: Refunds.Step)
    ensures s.Reserve? && Reserved(l, s.input).Ok? ==>
      Reserved(l, s.input).value == l.(refunds := l.refunds + [Refund(s.input.key, Asked(l, s.input), Pending)])
  {
  }

  lemma {:induction false} RunSane(w: World, steps: seq<Step>)
    requires Sane(w) && Allowed(w, steps)
    ensures Sane(Run(w, steps)) && Run(w, steps).l.payment.amount == w.l.payment.amount
    decreases |steps|
  {
    hide Enabled, Next, Sane;
    if steps != [] {
      NextSane(w, steps[0]);
      RunSane(Next(w, steps[0]), steps[1..]);
    }
  }

  // ---- exactly when no more is returned than was paid ----

  predicate ReturnedWithoutRoom(w: World, step: Step) {
    step.Return? && MadeWithoutRoom(Books(w), Made(step.i))
  }

  /** A reservation granted that asks for more than the gateway neither returned nor may yet return. */
  predicate GrantedWithoutRoom(w: World, step: Step) {
    Grants(w, step) && Asked(w.l, step.step.input) > w.l.payment.amount - Exposure(w)
  }

  lemma GrantGrows(w: World, step: Step)
    requires Enabled(w, step) && Grants(w, step)
    ensures ReturnedTotal(Next(w, step)) == ReturnedTotal(w)
    ensures Exposure(Next(w, step)) == Exposure(w) + Asked(w.l, step.step.input)
  {
    ReservedAppends(w.l, step.step);
    var r := Refund(step.step.input.key, Asked(w.l, step.step.input), Pending);
    TotalAppend(w.books, r, Succeeded);
    TotalAppend(w.books, r, Pending);
    hide Total, Reserved, Asked;
  }

  lemma NextReturnedExactly(w: World, step: Step)
    requires Enabled(w, step) && ReturnedTotal(w) <= w.l.payment.amount
    ensures ReturnedTotal(Next(w, step)) <= Next(w, step).l.payment.amount <==> !ReturnedWithoutRoom(w, step)
  {
    hide Total, Reserved;
    match step
    case Return(i) => NextRecordedExactly(Books(w), Made(i));
    case Refuse(i) => NextRecordedExactly(Books(w), Errored(i));
    case Serve(s) => if Grants(w, step) { ReservedAppends(w.l, s); GrantGrows(w, step); }
  }

  lemma NextExposureExactly(w: World, step: Step)
    requires Sane(w) && Enabled(w, step) && Exposure(w) <= w.l.payment.amount
    ensures Exposure(Next(w, step)) <= Next(w, step).l.payment.amount <==> !GrantedWithoutRoom(w, step)
  {
    hide Total, Reserved;
    match step
    case Return(i) => NextCommittedExactly(Books(w), Made(i));
    case Refuse(i) => NextCommittedExactly(Books(w), Errored(i));
    case Serve(s) => if Grants(w, step) { ReservedAppends(w.l, s); GrantGrows(w, step); }
  }

  predicate AlwaysReturnedWithin(w: World, steps: seq<Step>)
    requires Allowed(w, steps)
    decreases |steps|
  {
    ReturnedTotal(w) <= w.l.payment.amount && (steps == [] || AlwaysReturnedWithin(Next(w, steps[0]), steps[1..]))
  }

  predicate AlwaysExposedWithin(w: World, steps: seq<Step>)
    requires Allowed(w, steps)
    decreases |steps|
  {
    Exposure(w) <= w.l.payment.amount && (steps == [] || AlwaysExposedWithin(Next(w, steps[0]), steps[1..]))
  }

  predicate AllReturnedWithRoom(w: World, steps: seq<Step>)
    requires Allowed(w, steps)
    decreases |steps|
  {
    steps == [] || (!ReturnedWithoutRoom(w, steps[0]) && AllReturnedWithRoom(Next(w, steps[0]), steps[1..]))
  }

  predicate AllGrantedWithRoom(w: World, steps: seq<Step>)
    requires Allowed(w, steps)
    decreases |steps|
  {
    steps == [] || (!GrantedWithoutRoom(w, steps[0]) && AllGrantedWithRoom(Next(w, steps[0]), steps[1..]))
  }

  lemma {:induction false} RunReturnedExactly(w: World, steps: seq<Step>)
    requires Allowed(w, steps) && ReturnedTotal(w) <= w.l.payment.amount
    ensures AlwaysReturnedWithin(w, steps) <==> AllReturnedWithRoom(w, steps)
    decreases |steps|
  {
    hide Next, Enabled, ReturnedTotal, ReturnedWithoutRoom;
    if steps != [] {
      NextReturnedExactly(w, steps[0]);
      if !ReturnedWithoutRoom(w, steps[0]) {
        RunReturnedExactly(Next(w, steps[0]), steps[1..]);
      }
    }
  }

  lemma {:induction false} RunExposureExactly(w: World, steps: seq<Step>)
    requires Sane(w) && Allowed(w, steps) && Exposure(w) <= w.l.payment.amount
    ensures AlwaysExposedWithin(w, steps) <==> AllGrantedWithRoom(w, steps)
    decreases |steps|
  {
    hide Next, Enabled, Exposure, GrantedWithoutRoom, Sane;
    if steps != [] {
      NextExposureExactly(w, steps[0]);
      NextSane(w, steps[0]);
      if !GrantedWithoutRoom(w, steps[0]) {
        RunExposureExactly(Next(w, steps[0]), steps[1..]);
      }
    }
  }

  lemma {:induction false} ExposureCovers(w: World, steps: seq<Step>)
    requires Sane(w) && w.l.payment.amount >= 0 && Allowed(w, steps) && AlwaysExposedWithin(w, steps)
    ensures AlwaysReturnedWithin(w, steps)
    decreases |steps|
  {
    TotalIsBounded(w.books, w.l.payment.amount, Pending);
    hide Next, Enabled, Total, Sane;
    if steps != [] {
      NextSane(w, steps[0]);
      ExposureCovers(Next(w, steps[0]), steps[1..]);
    }
  }

  /** Over every run, no more is returned than was paid, in any state, if and only if the gateway makes no
      refund larger than what it has not returned yet.  The service cannot see that; it can see to it that
      no reservation asks for more than was neither returned nor may yet be, which is exactly what keeps
      the two together within what was paid, and is enough. */
  lemma ReturnsExactly(payment: Payment, steps: seq<Step>)
    requires payment.amount >= 0 && Allowed(Start(payment), steps)
    ensures var w := Start(payment);
      && (AlwaysReturnedWithin(w, steps) <==> AllReturnedWithRoom(w, steps))
      && (AlwaysExposedWithin(w, steps) <==> AllGrantedWithRoom(w, steps))
      && (AllGrantedWithRoom(w, steps) ==> AllReturnedWithRoom(w, steps))
  {
    var w := Start(payment);
    assert Exposure(w) == 0;
    RunReturnedExactly(w, steps);
    RunExposureExactly(w, steps);
    if AllGrantedWithRoom(w, steps) {
      ExposureCovers(w, steps);
    }
  }

  // ---- what may still be returned ----

  predicate NoGrant(w: World, steps: seq<Step>)
    requires Allowed(w, steps)
    decreases |steps|
  {
    steps == [] || (!Grants(w, steps[0]) && NoGrant(Next(w, steps[0]), steps[1..]))
  }

  lemma NextExposureFalls(w: World, step: Step)
    requires Sane(w) && Enabled(w, step) && !Grants(w, step)
    ensures Exposure(Next(w, step)) <= Exposure(w)
  {
    hide Total, Count, Reserved;
    match step
    case Return(i) =>
      TotalUpdate(w.books, i, w.books[i].(status := Succeeded), Succeeded);
      TotalUpdate(w.books, i, w.books[i].(status := Succeeded), Pending);
    case Refuse(i) =>
      TotalUpdate(w.books, i, w.books[i].(status := Failed), Succeeded);
      TotalUpdate(w.books, i, w.books[i].(status := Failed), Pending);
    case Serve(_) =>
  }

  lemma {:induction false} NoMoreThanExposure(w: World, steps: seq<Step>)
    requires Sane(w) && w.l.payment.amount >= 0 && Allowed(w, steps) && NoGrant(w, steps)
    ensures ReturnedTotal(Run(w, steps)) <= Exposure(w)
    decreases |steps|
  {
    TotalIsBounded(w.books, w.l.payment.amount, Pending);
    hide Next, Enabled, Total, Sane, Grants;
    if steps != [] {
      NextExposureFalls(w, steps[0]);
      NextSane(w, steps[0]);
      NoMoreThanExposure(Next(w, steps[0]), steps[1..]);
    }
  }

  ghost predicate Undecided(w: World, i: nat) { i < |w.books| && w.books[i].status == Pending }

  lemma {:induction false} NoneUndecided(books: seq<Refund>)
    requires forall i :: 0 <= i < |books| ==> books[i].status != Pending
    ensures Total(books, Pending) == 0
  {
    if books != [] {
      NoneUndecided(books[..|books| - 1]);
    }
  }

  /** The gateway makes every refund it has not decided on. */
  lemma {:induction false} ExposureIsReached(w: World) returns (steps: seq<Step>)
    ensures Allowed(w, steps) && NoGrant(w, steps) && ReturnedTotal(Run(w, steps)) == Exposure(w)
    decreases Count(w.books, Pending)
  {
    if i: nat :| Undecided(w, i) {
      var step := Return(i);
      TotalUpdate(w.books, i, w.books[i].(status := Succeeded), Succeeded);
      TotalUpdate(w.books, i, w.books[i].(status := Succeeded), Pending);
      hide Total, Count;
      var rest := ExposureIsReached(Next(w, step));
      steps := [step] + rest;
      assert steps[1..] == rest;
    } else {
      assert forall i :: 0 <= i < |w.books| ==> w.books[i].status == Pending ==> Undecided(w, i);
      NoneUndecided(w.books);
      steps := [];
    }
  }

  /** Whatever happens before the next reservation, no more is returned than was paid. */
  ghost predicate SafeUntilNextGrant(w: World) {
    forall steps :: Allowed(w, steps) && NoGrant(w, steps) ==> ReturnedTotal(Run(w, steps)) <= w.l.payment.amount
  }

  /** A reservation is safe if and only if it asks for no more than was neither returned nor may yet be:
      otherwise some course of events before the next one returns more than was paid. */
  lemma GrantIsSafeExactly(w: World, step: Step)
    requires Sane(w) && w.l.payment.amount >= 0 && Enabled(w, step) && Grants(w, step)
    ensures SafeUntilNextGrant(Next(w, step)) <==> Asked(w.l, step.step.input) <= w.l.payment.amount - Exposure(w)
  {
    NextSane(w, step);
    GrantGrows(w, step);
    var w' := Next(w, step);
    hide Sane, Enabled, Next, Grants, Exposure, ReturnedTotal, Allowed, NoGrant, Run, Asked;
    SafeExactly(w');
  }

  lemma SafeExactly(w: World)
    requires Sane(w) && w.l.payment.amount >= 0
    ensures SafeUntilNextGrant(w) <==> Exposure(w) <= w.l.payment.amount
  {
    hide Sane, Exposure, ReturnedTotal, Allowed, NoGrant, Run;
    var worst := ExposureIsReached(w);
    forall steps | Allowed(w, steps) && NoGrant(w, steps) ensures ReturnedTotal(Run(w, steps)) <= Exposure(w) {
      NoMoreThanExposure(w, steps);
    }
  }

  // ---- how far it can go ----

  /** Refunds the gateway did not refuse and the service does not have as succeeded: in flight, or made and
      recorded as failed or not at all, or failed in the books of the service and still to be made. */
  function Open(refunds: seq<Refund>, books: seq<Refund>): nat
    requires |refunds| == |books|
  {
    if refunds == [] then 0
    else
      var n := |refunds| - 1;
      Open(refunds[..n], books[..n]) + (if refunds[n].status != Succeeded && books[n].status != Failed then 1 else 0)
  }

  lemma {:induction false} ExposureIsBounded(refunds: seq<Refund>, books: seq<Refund>, amount: int)
    requires Matched(refunds, books) && Sound(refunds, amount) && amount >= 0
    ensures Total(books, Succeeded) + Total(books, Pending) <= Total(refunds, Succeeded) + Times(Open(refunds, books), amount)
  {
    if refunds != [] {
      var n := |refunds| - 1;
      assert Same(refunds[n], books[n]) && refunds[n].amount <= amount;
      ExposureIsBounded(refunds[..n], books[..n], amount);
    }
  }

  ghost predicate AtMostOpen(w: World, steps: seq<Step>, k: nat)
    requires Allowed(w, steps)
    decreases |steps|
  {
    |w.l.refunds| == |w.books| && Open(w.l.refunds, w.books) <= k
    && (steps == [] || AtMostOpen(Next(w, steps[0]), steps[1..], k))
  }

  lemma GrantFits(w: World, step: Step, k: nat)
    requires Sane(w) && w.l.payment.amount >= 0 && Enabled(w, step) && Grants(w, step)
    requires |Next(w, step).l.refunds| == |Next(w, step).books| && Open(Next(w, step).l.refunds, Next(w, step).books) <= k
    ensures Exposure(Next(w, step)) <= Times(k, w.l.payment.amount)
  {
    var refunds, books, amount := w.l.refunds, w.books, w.l.payment.amount;
    var r := Refund(step.step.input.key, Asked(w.l, step.step.input), Pending);
    ReservedAppends(w.l, step.step);
    assert Asked(w.l, step.step.input) <= Available(w.l);
    GrantGrows(w, step);
    ExposureIsBounded(refunds, books, amount);
    assert (refunds + [r])[..|refunds|] == refunds && (books + [r])[..|books|] == books;
    assert Open(refunds + [r], books + [r]) == Open(refunds, books) + 1;
    TimesGrows(Open(refunds, books) + 1, k, amount);
    hide Total, Reserved, Asked, Sound, Matched;
  }

  lemma {:induction false} RunFits(w: World, steps: seq<Step>, k: nat)
    requires Sane(w) && w.l.payment.amount >= 0 && Allowed(w, steps) && AtMostOpen(w, steps, k)
    requires Exposure(w) <= Times(k, w.l.payment.amount)
    ensures Exposure(Run(w, steps)) <= Times(k, w.l.payment.amount)
    decreases |steps|
  {
    hide Next, Enabled, Sane, Grants, Exposure, Times, Open;
    if steps != [] {
      NextSane(w, steps[0]);
      if Grants(w, steps[0]) {
        GrantFits(w, steps[0], k);
      } else {
        NextExposureFalls(w, steps[0]);
      }
      RunFits(Next(w, steps[0]), steps[1..], k);
    }
  }

  /** With at most `k` refunds open at a time, what was and may yet be returned never exceeds `k` times the
      payment.  A refund whose answer was lost stays open until the gateway refuses it: with one open at a
      time no more is returned than was paid. */
  lemma ReturnsStayWithin(payment: Payment, steps: seq<Step>, k: nat)
    requires payment.amount >= 0 && Allowed(Start(payment), steps) && AtMostOpen(Start(payment), steps, k)
    ensures Exposure(Run(Start(payment), steps)) <= k * payment.amount
    ensures ReturnedTotal(Run(Start(payment), steps)) <= k * payment.amount
  {
    var w := Start(payment);
    TimesGrows(0, k, payment.amount);
    RunFits(w, steps, k);
    RunSane(w, steps);
    TimesIsProduct(k, payment.amount);
    TotalIsBounded(Run(w, steps).books, payment.amount, Pending);
    hide Run, Allowed, AtMostOpen, Total;
  }

  // ---- what is recorded and what was returned ----

  lemma {:induction false} TotalsAgreeExactly(refunds: seq<Refund>, books: seq<Refund>, amount: int)
    requires Matched(refunds, books) && Sound(refunds, amount)
    ensures Total(refunds, Succeeded) <= Total(books, Succeeded)
    ensures Total(refunds, Succeeded) == Total(books, Succeeded)
      <==> forall i :: 0 <= i < |refunds| && books[i].status == Succeeded ==> refunds[i].status == Succeeded
  {
    if refunds != [] {
      var n := |refunds| - 1;
      assert Same(refunds[n], books[n]) && 0 < refunds[n].amount;
      TotalsAgreeExactly(refunds[..n], books[..n], amount);
    }
  }

  /** In every reachable state no more is recorded as returned than was, and exactly as much if and only
      if every refund the gateway made is recorded as made. */
  lemma RecordedExactly(payment: Payment, steps: seq<Step>)
    requires Allowed(Start(payment), steps)
    ensures var w := Run(Start(payment), steps);
      && |w.l.refunds| == |w.books| && RecordedTotal(w) <= ReturnedTotal(w)
      && (RecordedTotal(w) == ReturnedTotal(w)
          <==> forall i :: 0 <= i < |w.books| && w.books[i].status == Succeeded ==> w.l.refunds[i].status == Succeeded)
  {
    RunSane(Start(payment), steps);
    var w := Run(Start(payment), steps);
    TotalsAgreeExactly(w.l.refunds, w.books, w.l.payment.amount);
    hide Run, Allowed, Total;
  }

  // ---- one refund, undisturbed ----

  /** The course of one call: what the gateway does, then what the service makes of the reply. */
  function Course(i: nat, reply: Reply, now: Time): seq<Step> {
    match reply
    case Done(answer) => [Return(i), Serve(Made(i)), Serve(Apply(answer, now))]
    case NotDone => [Refuse(i), Serve(Errored(i))]
    case NoAnswer(made) => if made then [Return(i), Serve(Errored(i))] else [Serve(Errored(i))]
  }

  /** A refund that nothing interferes with is such a course.  It returns the money exactly when the gateway
      made it, answered or not, while the caller is told of a success only when it answered. */
  lemma RefundingIsARun(w: World, input: Input, reply: Reply, now: Time)
    requires Sane(w) && Reserved(w.l, input).Ok?
    ensures var steps := [Serve(Reserve(input))] + Course(|w.l.refunds|, reply, now);
      && Allowed(w, steps) && Run(w, steps).l == Refunding(w.l, input, reply, now).0
      && Refunding(w.l, input, reply, now).1
         == (if reply.Done? then Ok(Refund(input.key, Asked(w.l, input), Succeeded)) else Err(GatewayError))
      && ReturnedTotal(Run(w, steps))
         == ReturnedTotal(w) + (if reply.Done? || (reply.NoAnswer? && reply.made) then Asked(w.l, input) else 0)
  {
    var i, first := |w.l.refunds|, Serve(Reserve(input));
    ReservedAppends(w.l, first.step);
    GrantGrows(w, first);
    var w1 := Next(w, first);
    hide Total, Reserved, Asked, Sound, Count;
    assert ([first] + Course(i, reply, now))[1..] == Course(i, reply, now);
    CourseRuns(w1, i, reply, now);
  }

  lemma Then(w: World, step: Step, rest: seq<Step>)
    requires Enabled(w, step) && Allowed(Next(w, step), rest)
    ensures Allowed(w, [step] + rest) && Run(w, [step] + rest) == Run(Next(w, step), rest)
    ensures OneAtATime(w, [step] + rest) <==> Count(w.l.refunds, Pending) <= 1 && OneAtATime(Next(w, step), rest)
  {
    hide Enabled, Next, Count;
    assert ([step] + rest)[1..] == rest;
  }

  ghost predicate Waits(w: World, i: nat) {
    i < |w.l.refunds| && i < |w.books| && w.l.refunds[i].status == Pending && w.books[i].status == Pending
  }

  lemma CourseRuns(w: World, i: nat, reply: Reply, now: Time)
    requires Waits(w, i)
    ensures var steps := Course(i, reply, now);
      && Allowed(w, steps)
      && Run(w, steps).l
         == (if reply.Done? then AppliedToPayment(WithOutcome(w.l, i, Succeeded), reply.answer, now) else WithOutcome(w.l, i, Failed))
      && ReturnedTotal(Run(w, steps))
         == ReturnedTotal(w) + (if reply.Done? || (reply.NoAnswer? && reply.made) then w.books[i].amount else 0)
  {
    TotalUpdate(w.books, i, w.books[i].(status := Succeeded), Succeeded);
    TotalUpdate(w.books, i, w.books[i].(status := Failed), Succeeded);
    hide Total, Count, AppliedToPayment, Allowed, Run;
    match reply
    case Done(answer) => DoneRuns(w, i, answer, now);
    case NotDone =>
      ErroredRuns(Next(w, Refuse(i)), i);
      Then(w, Refuse(i), [Serve(Errored(i))]);
      assert [Refuse(i)] + [Serve(Errored(i))] == Course(i, reply, now);
    case NoAnswer(made) =>
      if made {
        ErroredRuns(Next(w, Return(i)), i);
        Then(w, Return(i), [Serve(Errored(i))]);
        assert [Return(i)] + [Serve(Errored(i))] == Course(i, reply, now);
      } else {
        ErroredRuns(w, i);
      }
  }

  lemma DoneRuns(w: World, i: nat, answer: Answer, now: Time)
    requires Waits(w, i)
    ensures var steps := Course(i, Done(answer), now);
      && Allowed(w, steps) && Run(w, steps).l == AppliedToPayment(WithOutcome(w.l, i, Succeeded), answer, now)
      && Run(w, steps).books == w.books[i := w.books[i].(status := Succeeded)]
  {
    hide AppliedToPayment;
    var s1, s2, s3 := Return(i), Serve(Made(i)), Serve(Apply(answer, now));
    var w1 := Next(w, s1);
    var w2 := Next(w1, s2);
    var w3 := Next(w2, s3);
    assert Run(w3, []) == w3 && w3.l == AppliedToPayment(WithOutcome(w.l, i, Succeeded), answer, now);
    assert [s3] + [] == [s3] && [s2] + [s3] == [s2, s3] && [s1] + [s2, s3] == Course(i, Done(answer), now);
    hide Next;
    Then(w2, s3, []);
    Then(w1, s2, [s3]);
    Then(w, s1, [s2, s3]);
  }

  lemma ErroredRuns(w: World, i: nat)
    requires i < |w.l.refunds| && w.l.refunds[i].status == Pending
    ensures Allowed(w, [Serve(Errored(i))]) && Run(w, [Serve(Errored(i))]) == World(WithOutcome(w.l, i, Failed), w.books)
  {
    var s := Serve(Errored(i));
    assert [s] + [] == [s];
    Then(w, s, []);
  }

  // ---- lost answers, one after the other ----

  /** `k` full refunds, each made and each recorded as failed because its answer was lost. */
  function Lost(k: nat, amount: int, status: RefundStatus): seq<Refund> {
    seq(k, i requires 0 <= i < k => Refund(Key(i), amount, status))
  }

  function Losses(from: nat, k: nat): seq<Step>
    requires from <= k
    decreases k - from
  {
    if from == k then []
    else [Serve(Reserve(Input("", 0, Key(from))))] + ([Return(from)] + ([Serve(Errored(from))] + Losses(from + 1, k)))
  }

  predicate OneAtATime(w: World, steps: seq<Step>)
    requires Allowed(w, steps)
    decreases |steps|
  {
    Count(w.l.refunds, Pending) <= 1 && (steps == [] || OneAtATime(Next(w, steps[0]), steps[1..]))
  }

  lemma {:induction false} LostTotals(k: nat, amount: int, status: RefundStatus)
    ensures Total(Lost(k, amount, status), status) == Times(k, amount)
    ensures status != Succeeded ==> Total(Lost(k, amount, status), Succeeded) == 0
    ensures status != Pending ==> Count(Lost(k, amount, status), Pending) == 0
  {
    if k > 0 {
      assert Lost(k, amount, status)[..k - 1] == Lost(k - 1, amount, status);
      LostTotals(k - 1, amount, status);
    }
  }

  function AfterLosses(payment: Payment, k: nat): World {
    World(Ledger(payment, Lost(k, payment.amount, Failed)), Lost(k, payment.amount, Succeeded))
  }

  lemma ReservesAgain(payment: Payment, k: nat)
    requires payment.amount > 0 && PaymentStatuses.Settled(payment.status)
    ensures var w, r := AfterLosses(payment, k), Refund(Key(k), payment.amount, Pending);
      && Next(w, Serve(Reserve(Input("", 0, Key(k))))) == World(Ledger(payment, w.l.refunds + [r]), w.books + [r])
      && Count(w.l.refunds, Pending) == 0 && Count(w.l.refunds + [r], Pending) == 1
  {
    var w, r := AfterLosses(payment, k), Refund(Key(k), payment.amount, Pending);
    LostTotals(k, payment.amount, Failed);
    assert forall i :: 0 <= i < k ==> |w.l.refunds[i].key| != |Key(k)|;
    TotalAppend(w.l.refunds, r, Pending);
    hide Total, Count, Key;
  }

  lemma OneLoss(payment: Payment, k: nat, rest: seq<Step>)
    requires payment.amount > 0 && PaymentStatuses.Settled(payment.status)
    requires Allowed(AfterLosses(payment, k + 1), rest) && OneAtATime(AfterLosses(payment, k + 1), rest)
    ensures var w := AfterLosses(payment, k);
      var steps := [Serve(Reserve(Input("", 0, Key(k))))] + ([Return(k)] + ([Serve(Errored(k))] + rest));
      Allowed(w, steps) && OneAtATime(w, steps) && Run(w, steps) == Run(AfterLosses(payment, k + 1), rest)
  {
    var w, r := AfterLosses(payment, k), Refund(Key(k), payment.amount, Pending);
    var s1, s2, s3 := Serve(Reserve(Input("", 0, Key(k)))), Return(k), Serve(Errored(k));
    ReservesAgain(payment, k);
    hide Reserved, Total, Count, Allowed, OneAtATime, Run;
    var w1 := Next(w, s1);
    var w2 := Next(w1, s2);
    var w3 := Next(w2, s3);
    LostOneMore(payment, k, r);
    assert w3 == AfterLosses(payment, k + 1);
    hide Next, AfterLosses, Key;
    Then(w2, s3, rest);
    Then(w1, s2, [s3] + rest);
    Then(w, s1, [s2] + ([s3] + rest));
  }

  lemma LostOneMore(payment: Payment, k: nat, r: Refund)
    requires r == Refund(Key(k), payment.amount, Pending)
    ensures var w, w' := AfterLosses(payment, k), AfterLosses(payment, k + 1);
      && (w.l.refunds + [r])[k := r.(status := Failed)] == w'.l.refunds
      && (w.books + [r])[k := r.(status := Succeeded)] == w'.books
  {
    hide Key;
  }

  lemma {:induction false} LossesRun(payment: Payment, from: nat, k: nat)
    requires from <= k && payment.amount > 0 && PaymentStatuses.Settled(payment.status)
    ensures var w := AfterLosses(payment, from);
      Allowed(w, Losses(from, k)) && OneAtATime(w, Losses(from, k)) && Run(w, Losses(from, k)) == AfterLosses(payment, k)
    decreases k - from
  {
    if from == k {
      LostTotals(k, payment.amount, Failed);
    } else {
      LossesRun(payment, from + 1, k);
      hide Next, Enabled, AfterLosses, Key;
      OneLoss(payment, from, Losses(from + 1, k));
    }
  }

  /** One refund at a time is no protection, and no bound holds: `k` full refunds, one after the other,
      whose answers are lost return `k` times what was paid, and none of it is recorded as returned. */
  lemma LostAnswersReturnAgain(payment: Payment, k: nat)
    requires payment.amount > 0 && PaymentStatuses.Settled(payment.status)
    ensures Allowed(Start(payment), Losses(0, k)) && OneAtATime(Start(payment), Losses(0, k))
    ensures ReturnedTotal(Run(Start(payment), Losses(0, k))) == k * payment.amount
    ensures RecordedTotal(Run(Start(payment), Losses(0, k))) == 0
  {
    assert AfterLosses(payment, 0) == Start(payment);
    LossesRun(payment, 0, k);
    LostTotals(k, payment.amount, Succeeded);
    LostTotals(k, payment.amount, Failed);
    TimesIsProduct(k, payment.amount);
    hide Run, Allowed, OneAtATime, Losses, Lost, Total;
  }
}
