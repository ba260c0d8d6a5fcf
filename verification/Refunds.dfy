/** Refunds in two phases: reserved under the payment's lock, then put to the gateway outside it. */
module Refunds {
  import opened Wrappers
  import PaymentStatuses
  import opened Payments
  import opened Multiples

  datatype RefundStatus = Pending | Succeeded | Failed

  datatype Refund = Refund(key: string, amount: int, status: RefundStatus)

  datatype RefundError =
    | NegativeAmount | PaymentNotFound | NotRefundable | ExceedsBalance | DuplicateKey | GatewayError

  /** A payment with its refunds, in order of creation. */
  datatype Ledger = Ledger(payment: Payment, refunds: seq<Refund>)

  function Total(refunds: seq<Refund>, status: RefundStatus): int {
    if refunds == [] then 0
    else
      var last := refunds[|refunds| - 1];
      Total(refunds[..|refunds| - 1], status) + (if last.status == status then last.amount else 0)
  }

  function Count(refunds: seq<Refund>, status: RefundStatus): nat {
    if refunds == [] then 0
    else Count(refunds[..|refunds| - 1], status) + (if refunds[|refunds| - 1].status == status then 1 else 0)
  }

  function Available(l: Ledger): int { l.payment.amount - Total(l.refunds, Succeeded) }

  predicate KeyTaken(refunds: seq<Refund>, key: string) {
    exists i :: 0 <= i < |refunds| && refunds[i].key == key
  }

  datatype Input = Input(applicationId: string, amount: int, key: string)

  /** Zero asks for everything that is left. */
  function Asked(l: Ledger, input: Input): int { if input.amount == 0 then Available(l) else input.amount }

  /** Phase one, under the lock. */
  function Reserved(l: Ledger, input: Input): Result<Ledger, RefundError> {
    if input.amount < 0 then Err(NegativeAmount)
    else if input.applicationId != "" && l.payment.applicationId != input.applicationId then Err(PaymentNotFound)
    else if !PaymentStatuses.Settled(l.payment.status) then Err(NotRefundable)
    else if Available(l) <= 0 then Err(NotRefundable)
    else if Asked(l, input) > Available(l) then Err(ExceedsBalance)
    else if KeyTaken(l.refunds, input.key) then Err(DuplicateKey)
    else Ok(l.(refunds := l.refunds + [Refund(input.key, Asked(l, input), Pending)]))
  }

  function WithOutcome(l: Ledger, i: nat, status: RefundStatus): Ledger
    requires i < |l.refunds|
  {
    l.(refunds := l.refunds[i := l.refunds[i].(status := status)])
  }

  /** What the gateway says of a refund it made: a cumulative total, or zero, and sometimes the status
      the payment now has. */
  datatype Answer = Answer(total: int, paymentStatus: Option<PaymentStatuses.Status>, word: string)

  function RefundedTotal(l: Ledger, answer: Answer): int {
    if answer.total == 0 then Total(l.refunds, Succeeded) else answer.total
  }

  function StatusAfter(l: Ledger, answer: Answer): PaymentStatuses.Status {
    if answer.paymentStatus.Some? then answer.paymentStatus.value
    else if RefundedTotal(l, answer) >= l.payment.amount then PaymentStatuses.Refunded
    else PaymentStatuses.PartiallyRefunded
  }

  function UpdateFor(l: Ledger, answer: Answer): StateUpdate {
    StateUpdate(StatusAfter(l, answer), answer.word, "", Some(RefundedTotal(l, answer)), None, false)
  }

  /** The payment after a refund: a status it cannot move to leaves it as it was. */
  function AppliedToPayment(l: Ledger, answer: Answer, now: Time): Ledger {
    match Applied(l.payment, UpdateFor(l, answer), now)
    case Ok(p) => l.(payment := p)
    case Err(_) => l
  }

  /** The payment event that follows a refund: one for the new status, none if it did not change. */
  function PaymentEvent(l: Ledger, answer: Answer, now: Time): Option<PaymentStatuses.Status> {
    match Applied(l.payment, UpdateFor(l, answer), now)
    case Ok(p) => Some(p.status)
    case Err(_) => None
  }

  /** What the call to the gateway returns.  An error is a refusal, or no answer that could be read: the
      refund may have been made. */
  datatype Reply = Done(answer: Answer) | NotDone | NoAnswer(made: bool)

  /** A refund without interference: reserved, put to the gateway, recorded. */
  function Refunding(l: Ledger, input: Input, reply: Reply, now: Time): (Ledger, Result<Refund, RefundError>) {
    match Reserved(l, input)
    case Err(e) => (l, Err(e))
    case Ok(reserved) =>
      var i := |l.refunds|;
      match reply
      case Done(answer) =>
        var done := WithOutcome(reserved, i, Succeeded);
        (AppliedToPayment(done, answer, now), Ok(done.refunds[i]))
      case _ => (WithOutcome(reserved, i, Failed), Err(GatewayError))
  }

  class Service {
    var payment: Payment
    var refunds: seq<Refund>

    constructor (payment: Payment)
      ensures State() == Ledger(payment, [])
    {
      this.payment := payment;
      refunds := [];
    }

    ghost function State(): Ledger
      reads this
    {
      Ledger(payment, refunds)
    }

    method SucceededRefundTotal() returns (total: int)
      ensures total == Total(refunds, Succeeded)
    {
      total := 0;
      for i := 0 to |refunds|
        invariant total == Total(refunds[..i], Succeeded)
      {
        assert refunds[..i + 1][..i] == refunds[..i];
        if refunds[i].status == Succeeded {
          total := total + refunds[i].amount;
        }
      }
      assert refunds[..|refunds|] == refunds;
    }

    method Reserve(input: Input) returns (r: Result<nat, RefundError>)
      modifies this`refunds
      ensures match Reserved(old(State()), input)
              case Ok(l) => r == Ok(|old(refunds)|) && State() == l
              case Err(e) => r == Err(e) && State() == old(State())
    {
      if input.amount < 0 {
        return Err(NegativeAmount);
      }
      if input.applicationId != "" && payment.applicationId != input.applicationId {
        return Err(PaymentNotFound);
      }
      if !PaymentStatuses.Settled(payment.status) {
        return Err(NotRefundable);
      }
      var refunded := SucceededRefundTotal();
      var available := payment.amount - refunded;
      if available <= 0 {
        return Err(NotRefundable);
      }
      var amount := input.amount;
      if amount == 0 {
        amount := available;
      }
      if amount > available {
        return Err(ExceedsBalance);
      }
      if KeyTaken(refunds, input.key) {
        return Err(DuplicateKey);
      }
      refunds := refunds + [Refund(input.key, amount, Pending)];
      return Ok(|refunds| - 1);
    }

    method ApplyRefundToPayment(answer: Answer, now: Time) returns (event: Option<PaymentStatuses.Status>)
      modifies this`payment
      ensures State() == AppliedToPayment(old(State()), answer, now)
      ensures event == PaymentEvent(old(State()), answer, now)
    {
      var refundedTotal := answer.total;
      if refundedTotal == 0 {
        refundedTotal := SucceededRefundTotal();
      }
      var status := PaymentStatuses.PartiallyRefunded;
      if refundedTotal >= payment.amount {
        status := PaymentStatuses.Refunded;
      }
      if answer.paymentStatus.Some? {
        status := answer.paymentStatus.value;
      }
      var r := Applied(payment, StateUpdate(status, answer.word, "", Some(refundedTotal), None, false), now);
      if r.Err? {
        return None;
      }
      payment := r.value;
      return Some(payment.status);
    }

    /** `reply` is what comes of the call to the gateway, if it is made. */
    method MakeRefund(input: Input, reply: Reply, now: Time) returns (r: Result<Refund, RefundError>)
      modifies this
      ensures (State(), r) == Refunding(old(State()), input, reply, now)
    {
      var reserved := Reserve(input);
      if reserved.Err? {
        return Err(reserved.error);
      }
      var i := reserved.value;
      if !reply.Done? {
        refunds := refunds[i := refunds[i].(status := Failed)];
        return Err(GatewayError);
      }
      refunds := refunds[i := refunds[i].(status := Succeeded)];
      var _ := ApplyRefundToPayment(reply.answer, now);
      return Ok(refunds[i]);
    }
  }

  // ---- refunds in flight together ----

  /** `Errored` records that the call for a refund ended in an error, `Apply` brings the payment up to a refund
      that was made, and `Report` is any other update of the payment. */
  datatype Step =
    | Reserve(input: Input)
    | Made(i: nat)
    | Errored(i: nat)
    | Apply(answer: Answer, now: Time)
    | Report(update: StateUpdate, now: Time)

  predicate SomeMade(refunds: seq<Refund>) {
    exists i :: 0 <= i < |refunds| && refunds[i].status == Succeeded
  }

  predicate Enabled(l: Ledger, step: Step) {
    match step
    case Made(i) => i < |l.refunds| && l.refunds[i].status == Pending
    case Errored(i) => i < |l.refunds| && l.refunds[i].status == Pending
    case Apply(_, _) => SomeMade(l.refunds)
    case _ => true
  }

  function Next(l: Ledger, step: Step): Ledger
    requires Enabled(l, step)
  {
    match step
    case Reserve(input) => (match Reserved(l, input) case Ok(reserved) => reserved case Err(_) => l)
    case Made(i) => WithOutcome(l, i, Succeeded)
    case Errored(i) => WithOutcome(l, i, Failed)
    case Apply(answer, now) => AppliedToPayment(l, answer, now)
    case Report(update, now) =>
      (match Applied(l.payment, update, now) case Ok(p) => l.(payment := p) case Err(_) => l)
  }

  predicate Allowed(l: Ledger, steps: seq<Step>)
    decreases |steps|
  {
    steps == [] || (Enabled(l, steps[0]) && Allowed(Next(l, steps[0]), steps[1..]))
  }

  function Run(l: Ledger, steps: seq<Step>): Ledger
    requires Allowed(l, steps)
    decreases |steps|
  {
    if steps == [] then l else Run(Next(l, steps[0]), steps[1..])
  }

  /** Never more than `k` refunds wait for the gateway at a time. */
  predicate AtMost(l: Ledger, steps: seq<Step>, k: nat)
    requires Allowed(l, steps)
    decreases |steps|
  {
    Count(l.refunds, Pending) <= k && (steps == [] || AtMost(Next(l, steps[0]), steps[1..], k))
  }

  function Share(r: Refund, status: RefundStatus): int { if r.status == status then r.amount else 0 }

  lemma {:induction false} TotalUpdate(refunds: seq<Refund>, i: nat, r: Refund, status: RefundStatus)
    requires i < |refunds|
    ensures Total(refunds[i := r], status) == Total(refunds, status) - Share(refunds[i], status) + Share(r, status)
    ensures Count(refunds[i := r], status) == Count(refunds, status)
      - (if refunds[i].status == status then 1 else 0) + (if r.status == status then 1 else 0)
  {
    var n := |refunds| - 1;
    if i == n {
      assert refunds[i := r][..n] == refunds[..n];
    } else {
      assert refunds[i := r][..n] == refunds[..n][i := r];
      TotalUpdate(refunds[..n], i, r, status);
    }
  }

  lemma TotalAppend(refunds: seq<Refund>, r: Refund, status: RefundStatus)
    ensures Total(refunds + [r], status) == Total(refunds, status) + Share(r, status)
    ensures Count(refunds + [r], status) == Count(refunds, status) + (if r.status == status then 1 else 0)
  {
    assert (refunds + [r])[..|refunds|] == refunds;
  }

  ghost predicate Sound(refunds: seq<Refund>, amount: int) {
    forall i :: 0 <= i < |refunds| ==> 0 < refunds[i].amount <= amount
  }

  lemma {:induction false} TotalIsBounded(refunds: seq<Refund>, amount: int, status: RefundStatus)
    requires Sound(refunds, amount) && amount >= 0
    ensures 0 <= Total(refunds, status) <= Times(Count(refunds, status), amount)
  {
    if refunds != [] {
      TotalIsBounded(refunds[..|refunds| - 1], amount, status);
    }
  }

  function Committed(l: Ledger): int { Total(l.refunds, Succeeded) + Total(l.refunds, Pending) }

  lemma ReserveFits(l: Ledger, input: Input, k: nat)
    requires Sound(l.refunds, l.payment.amount) && l.payment.amount >= 0 && Reserved(l, input).Ok?
    requires Count(Reserved(l, input).value.refunds, Pending) <= k
    ensures Committed(Reserved(l, input).value) <= Times(k, l.payment.amount)
    ensures Sound(Reserved(l, input).value.refunds, l.payment.amount)
  {
    var r := Reserved(l, input).value.refunds[|l.refunds|];
    TotalAppend(l.refunds, r, Succeeded);
    TotalAppend(l.refunds, r, Pending);
    TotalIsBounded(l.refunds, l.payment.amount, Succeeded);
    TotalIsBounded(l.refunds, l.payment.amount, Pending);
    TimesGrows(Count(l.refunds, Pending) + 1, k, l.payment.amount);
  }

  lemma NextFits(l: Ledger, step: Step, k: nat)
    requires Sound(l.refunds, l.payment.amount) && l.payment.amount >= 0 && Enabled(l, step)
    requires Committed(l) <= Times(k, l.payment.amount) && Count(Next(l, step).refunds, Pending) <= k
    ensures Sound(Next(l, step).refunds, l.payment.amount) && Next(l, step).payment.amount == l.payment.amount
    ensures Committed(Next(l, step)) <= Times(k, l.payment.amount)
  {
    hide Times, Total, Count;
    match step
    case Reserve(input) => if Reserved(l, input).Ok? { ReserveFits(l, input, k); }
    case Made(i) =>
      TotalUpdate(l.refunds, i, l.refunds[i].(status := Succeeded), Succeeded);
      TotalUpdate(l.refunds, i, l.refunds[i].(status := Succeeded), Pending);
    case Errored(i) =>
      TotalUpdate(l.refunds, i, l.refunds[i].(status := Failed), Succeeded);
      TotalUpdate(l.refunds, i, l.refunds[i].(status := Failed), Pending);
    case Apply(_, _) =>
    case Report(_, _) =>
  }

  lemma {:induction false} RunFits(l: Ledger, steps: seq<Step>, k: nat)
    requires Sound(l.refunds, l.payment.amount) && l.payment.amount >= 0 && Allowed(l, steps) && AtMost(l, steps, k)
    requires Committed(l) <= Times(k, l.payment.amount)
    ensures Committed(Run(l, steps)) <= Times(k, l.payment.amount)
    ensures Sound(Run(l, steps).refunds, l.payment.amount)
    decreases |steps|
  {
    hide Times, Committed, Next, Enabled, Sound;
    if steps != [] {
      NextFits(l, steps[0], k);
      RunFits(Next(l, steps[0]), steps[1..], k);
    }
  }

  /** With at most `k` refunds in flight, the amounts recorded as returned or as still to be answered never
      exceed `k` times the payment; one at a time, no more is recorded as returned than was paid. */
  lemma RefundsStayWithin(payment: Payment, steps: seq<Step>, k: nat)
    requires payment.amount >= 0 && Allowed(Ledger(payment, []), steps) && AtMost(Ledger(payment, []), steps, k)
    ensures var l := Run(Ledger(payment, []), steps);
      Total(l.refunds, Succeeded) + Total(l.refunds, Pending) <= k * payment.amount
    ensures k == 1 ==> Total(Run(Ledger(payment, []), steps).refunds, Succeeded) <= payment.amount
  {
    TimesGrows(0, k, payment.amount);
    RunFits(Ledger(payment, []), steps, k);
    TimesIsProduct(k, payment.amount);
    TotalIsBounded(Run(Ledger(payment, []), steps).refunds, payment.amount, Pending);
    hide Run, Allowed, AtMost, Total;
  }

  // ---- exactly when the books stay within what was paid ----

  lemma NextSound(l: Ledger, step: Step)
    requires Sound(l.refunds, l.payment.amount) && Enabled(l, step)
    ensures Sound(Next(l, step).refunds, l.payment.amount) && Next(l, step).payment.amount == l.payment.amount
  {
    hide Total;
    if step.Reserve? && Reserved(l, step.input).Ok? {
      ReservedSound(l, step.input);
    }
  }

  /** A refund recorded as made that is larger than what is left then. */
  predicate MadeWithoutRoom(l: Ledger, step: Step) {
    step.Made? && step.i < |l.refunds| && l.refunds[step.i].amount > Available(l)
  }

  /** A reservation granted that asks for more than is neither recorded as made nor waiting. */
  predicate ReservedWithoutRoom(l: Ledger, step: Step) {
    step.Reserve? && Reserved(l, step.input).Ok? && Asked(l, step.input) > l.payment.amount - Committed(l)
  }

  lemma NextRecordedExactly(l: Ledger, step: Step)
    requires Enabled(l, step) && Total(l.refunds, Succeeded) <= l.payment.amount
    ensures Total(Next(l, step).refunds, Succeeded) <= Next(l, step).payment.amount <==> !MadeWithoutRoom(l, step)
  {
    hide Total, Count;
    match step
    case Reserve(input) =>
      if Reserved(l, input).Ok? {
        TotalAppend(l.refunds, Refund(input.key, Asked(l, input), Pending), Succeeded);
      }
    case Made(i) => TotalUpdate(l.refunds, i, l.refunds[i].(status := Succeeded), Succeeded);
    case Errored(i) => TotalUpdate(l.refunds, i, l.refunds[i].(status := Failed), Succeeded);
    case Apply(_, _) =>
    case Report(_, _) =>
  }

  lemma NextCommittedExactly(l: Ledger, step: Step)
    requires Sound(l.refunds, l.payment.amount) && Enabled(l, step) && Committed(l) <= l.payment.amount
    ensures Committed(Next(l, step)) <= Next(l, step).payment.amount <==> !ReservedWithoutRoom(l, step)
  {
    hide Total, Count;
    match step
    case Reserve(input) =>
      if Reserved(l, input).Ok? {
        TotalAppend(l.refunds, Refund(input.key, Asked(l, input), Pending), Succeeded);
        TotalAppend(l.refunds, Refund(input.key, Asked(l, input), Pending), Pending);
      }
    case Made(i) =>
      TotalUpdate(l.refunds, i, l.refunds[i].(status := Succeeded), Succeeded);
      TotalUpdate(l.refunds, i, l.refunds[i].(status := Succeeded), Pending);
    case Errored(i) =>
      TotalUpdate(l.refunds, i, l.refunds[i].(status := Failed), Succeeded);
      TotalUpdate(l.refunds, i, l.refunds[i].(status := Failed), Pending);
    case Apply(_, _) =>
    case Report(_, _) =>
  }

  predicate AlwaysRecordedWithin(l: Ledger, steps: seq<Step>)
    requires Allowed(l, steps)
    decreases |steps|
  {
    Total(l.refunds, Succeeded) <= l.payment.amount
    && (steps == [] || AlwaysRecordedWithin(Next(l, steps[0]), steps[1..]))
  }

  predicate AlwaysCommittedWithin(l: Ledger, steps: seq<Step>)
    requires Allowed(l, steps)
    decreases |steps|
  {
    Committed(l) <= l.payment.amount && (steps == [] || AlwaysCommittedWithin(Next(l, steps[0]), steps[1..]))
  }

  predicate AllMadeWithRoom(l: Ledger, steps: seq<Step>)
    requires Allowed(l, steps)
    decreases |steps|
  {
    steps == [] || (!MadeWithoutRoom(l, steps[0]) && AllMadeWithRoom(Next(l, steps[0]), steps[1..]))
  }

  predicate AllReservedWithRoom(l: Ledger, steps: seq<Step>)
    requires Allowed(l, steps)
    decreases |steps|
  {
    steps == [] || (!ReservedWithoutRoom(l, steps[0]) && AllReservedWithRoom(Next(l, steps[0]), steps[1..]))
  }

  lemma {:induction false} RunRecordedExactly(l: Ledger, steps: seq<Step>)
    requires Allowed(l, steps) && Total(l.refunds, Succeeded) <= l.payment.amount
    ensures AlwaysRecordedWithin(l, steps) <==> AllMadeWithRoom(l, steps)
    decreases |steps|
  {
    hide Next, Enabled, Total, MadeWithoutRoom;
    if steps != [] {
      NextRecordedExactly(l, steps[0]);
      if !MadeWithoutRoom(l, steps[0]) {
        RunRecordedExactly(Next(l, steps[0]), steps[1..]);
      }
    }
  }

  lemma {:induction false} RunCommittedExactly(l: Ledger, steps: seq<Step>)
    requires Sound(l.refunds, l.payment.amount) && Allowed(l, steps) && Committed(l) <= l.payment.amount
    ensures AlwaysCommittedWithin(l, steps) <==> AllReservedWithRoom(l, steps)
    decreases |steps|
  {
    hide Next, Enabled, Committed, ReservedWithoutRoom, Sound;
    if steps != [] {
      NextCommittedExactly(l, steps[0]);
      NextSound(l, steps[0]);
      if !ReservedWithoutRoom(l, steps[0]) {
        RunCommittedExactly(Next(l, steps[0]), steps[1..]);
      }
    }
  }

  lemma {:induction false} CommittedCovers(l: Ledger, steps: seq<Step>)
    requires Sound(l.refunds, l.payment.amount) && l.payment.amount >= 0 && Allowed(l, steps) && AlwaysCommittedWithin(l, steps)
    ensures AlwaysRecordedWithin(l, steps)
    decreases |steps|
  {
    TotalIsBounded(l.refunds, l.payment.amount, Pending);
    hide Next, Enabled, Total, Sound;
    if steps != [] {
      NextSound(l, steps[0]);
      CommittedCovers(Next(l, steps[0]), steps[1..]);
    }
  }

  /** Over every run, no more is recorded as returned than was paid, in any state, if and only if no
      refund is recorded as made for more than is left then.  What is recorded or waiting stays within what
      was paid if and only if no reservation asks for more than is neither: the balance the code checks
      leaves out what waits. */
  lemma RefundsExactly(payment: Payment, steps: seq<Step>)
    requires payment.amount >= 0 && Allowed(Ledger(payment, []), steps)
    ensures var l := Ledger(payment, []);
      && (AlwaysRecordedWithin(l, steps) <==> AllMadeWithRoom(l, steps))
      && (AlwaysCommittedWithin(l, steps) <==> AllReservedWithRoom(l, steps))
      && (AllReservedWithRoom(l, steps) ==> AllMadeWithRoom(l, steps))
  {
    var l := Ledger(payment, []);
    assert Committed(l) == 0;
    RunRecordedExactly(l, steps);
    RunCommittedExactly(l, steps);
    if AllReservedWithRoom(l, steps) {
      CommittedCovers(l, steps);
    }
  }

  // ---- the bound is reached ----

  function Key(i: nat): string { seq(i, _ => 'k') }

  /** The first `done` of `k` full refunds made. */
  function PartlyMade(k: nat, done: nat, amount: int): seq<Refund>
    requires done <= k
  {
    seq(k, i requires 0 <= i < k => Refund(Key(i), amount, if i < done then Succeeded else Pending))
  }

  function Reservations(from: nat, k: nat): seq<Step>
    requires from <= k
    decreases k - from
  {
    if from == k then Makings(0, k) else [Reserve(Input("", 0, Key(from)))] + Reservations(from + 1, k)
  }

  function Makings(from: nat, k: nat): seq<Step>
    requires from <= k
    decreases k - from
  {
    if from == k then [] else [Made(from)] + Makings(from + 1, k)
  }

  lemma {:induction false} WaitingTotals(k: nat, done: nat, amount: int)
    requires done <= k
    ensures Total(PartlyMade(k, done, amount), Succeeded) == Times(done, amount)
    ensures Count(PartlyMade(k, done, amount), Pending) == k - done
  {
    if k > 0 {
      var all := PartlyMade(k, done, amount);
      if done == k {
        assert all[..k - 1] == PartlyMade(k - 1, done - 1, amount);
        WaitingTotals(k - 1, done - 1, amount);
      } else {
        assert all[..k - 1] == PartlyMade(k - 1, done, amount);
        WaitingTotals(k - 1, done, amount);
      }
    }
  }

  lemma {:induction false} MakingsRun(payment: Payment, from: nat, k: nat)
    requires from <= k
    ensures var l := Ledger(payment, PartlyMade(k, from, payment.amount));
      Allowed(l, Makings(from, k)) && AtMost(l, Makings(from, k), k)
      && Run(l, Makings(from, k)) == Ledger(payment, PartlyMade(k, k, payment.amount))
    decreases k - from
  {
    var l := Ledger(payment, PartlyMade(k, from, payment.amount));
    WaitingTotals(k, from, payment.amount);
    if from < k {
      assert Next(l, Made(from)).refunds == PartlyMade(k, from + 1, payment.amount);
      MakingsRun(payment, from + 1, k);
      assert Makings(from, k)[1..] == Makings(from + 1, k);
    }
  }

  lemma ReservesAll(payment: Payment, from: nat)
    requires payment.amount > 0 && PaymentStatuses.Settled(payment.status)
    ensures Next(Ledger(payment, PartlyMade(from, 0, payment.amount)), Reserve(Input("", 0, Key(from))))
      == Ledger(payment, PartlyMade(from + 1, 0, payment.amount))
  {
    var refunds := PartlyMade(from, 0, payment.amount);
    WaitingTotals(from, 0, payment.amount);
    assert forall i :: 0 <= i < from ==> |refunds[i].key| != |Key(from)|;
    assert refunds + [Refund(Key(from), payment.amount, Pending)] == PartlyMade(from + 1, 0, payment.amount);
  }

  lemma {:induction false} ReservationsRun(payment: Payment, from: nat, k: nat)
    requires from <= k && payment.amount > 0 && PaymentStatuses.Settled(payment.status)
    ensures var l := Ledger(payment, PartlyMade(from, 0, payment.amount));
      Allowed(l, Reservations(from, k)) && AtMost(l, Reservations(from, k), k)
      && Run(l, Reservations(from, k)) == Ledger(payment, PartlyMade(k, k, payment.amount))
    decreases k - from
  {
    if from == k {
      MakingsRun(payment, 0, k);
    } else {
      WaitingTotals(from, 0, payment.amount);
      ReservesAll(payment, from);
      ReservationsRun(payment, from + 1, k);
      hide Next, PartlyMade, Count, Key;
      assert Reservations(from, k)[1..] == Reservations(from + 1, k);
    }
  }

  /** No smaller bound holds: of `k` full refunds reserved before any is answered, `k` times what was paid
      is recorded as returned. */
  lemma BoundIsReached(payment: Payment, k: nat)
    requires payment.amount > 0 && PaymentStatuses.Settled(payment.status)
    ensures Allowed(Ledger(payment, []), Reservations(0, k)) && AtMost(Ledger(payment, []), Reservations(0, k), k)
    ensures Total(Run(Ledger(payment, []), Reservations(0, k)).refunds, Succeeded) == k * payment.amount
  {
    assert PartlyMade(0, 0, payment.amount) == [];
    ReservationsRun(payment, 0, k);
    WaitingTotals(k, k, payment.amount);
    TimesIsProduct(k, payment.amount);
    hide Run, Allowed, AtMost, PartlyMade, Reservations, Total;
  }

  // ---- who may be refunded ----

  /** All that a reservation asks of the request, the payment and the refunds there are. */
  predicate MayRefund(l: Ledger, input: Input) {
    && input.amount >= 0 && (input.applicationId == "" || input.applicationId == l.payment.applicationId)
    && (l.payment.status == PaymentStatuses.Paid || l.payment.status == PaymentStatuses.Refunded
        || l.payment.status == PaymentStatuses.PartiallyRefunded)
    && 0 < l.payment.amount - Total(l.refunds, Succeeded) && input.amount <= l.payment.amount - Total(l.refunds, Succeeded)
    && forall i :: 0 <= i < |l.refunds| ==> l.refunds[i].key != input.key
  }

  /** A reservation is granted if and only if it is not negative, comes from the payment's own application or
      from none, the payment was paid, something is left and enough of it, and the key is new.  Otherwise it
      is refused for the first of these that fails. */
  lemma GrantedExactly(l: Ledger, input: Input)
    ensures var r := Reserved(l, input);
      var mine := input.applicationId == "" || l.payment.applicationId == input.applicationId;
      var left, status := l.payment.amount - Total(l.refunds, Succeeded), l.payment.status;
      var paid := status == PaymentStatuses.Paid || status == PaymentStatuses.Refunded || status == PaymentStatuses.PartiallyRefunded;
      && (r.Ok? <==> MayRefund(l, input))
      && (r.Ok? ==> r.value == Ledger(l.payment, l.refunds + [Refund(input.key, if input.amount == 0 then left else input.amount, Pending)]))
      && (r == Err(NegativeAmount) <==> input.amount < 0)
      && (r == Err(PaymentNotFound) <==> input.amount >= 0 && !mine)
      && (r == Err(NotRefundable) <==> input.amount >= 0 && mine && !(paid && left > 0))
      && (r == Err(ExceedsBalance) <==> mine && paid && input.amount > left > 0)
      && (r == Err(DuplicateKey) <==>
            mine && paid && 0 <= input.amount <= left && left > 0 && exists i :: 0 <= i < |l.refunds| && l.refunds[i].key == input.key)
  {
    hide Total;
  }

  /** A refund as it was reserved. */
  predicate Fixed(r: Refund, r': Refund) { r'.key == r.key && r'.amount == r.amount && (r.status != Pending ==> r' == r) }

  /** A step adds a refund if and only if it is a reservation that may be granted, and then that one, pending;
      the others keep their key and amount, and their outcome once they have one. */
  lemma NextAddsExactly(l: Ledger, step: Step)
    requires Enabled(l, step)
    ensures var l' := Next(l, step);
      && |l'.refunds| == |l.refunds| + (if step.Reserve? && MayRefund(l, step.input) then 1 else 0)
      && (forall i :: 0 <= i < |l.refunds| ==> Fixed(l.refunds[i], l'.refunds[i]))
      && (|l'.refunds| > |l.refunds| ==> l'.refunds[|l.refunds|].key == step.input.key && l'.refunds[|l.refunds|].status == Pending)
  {
    if step.Reserve? {
      GrantedExactly(l, step.input);
    }
    hide Total, Reserved;
  }

  /** What holds of the refunds of a payment at any time. */
  ghost predicate Rightful(l: Ledger) {
    && (l.refunds != [] ==> PaymentStatuses.Settled(l.payment.status))
    && (forall i, j :: 0 <= i < j < |l.refunds| ==> l.refunds[i].key != l.refunds[j].key)
    && Sound(l.refunds, l.payment.amount)
  }

  lemma NextRightful(l: Ledger, step: Step)
    requires Rightful(l) && Enabled(l, step)
    ensures Rightful(Next(l, step)) && Next(l, step).payment.amount == l.payment.amount
    ensures Next(l, step).payment.applicationId == l.payment.applicationId
  {
    NextSound(l, step);
    NextAddsExactly(l, step);
    NextSettled(l, step);
    hide Next, Enabled, Sound, Total;
  }

  lemma NextSettled(l: Ledger, step: Step)
    requires Enabled(l, step)
    ensures PaymentStatuses.Settled(l.payment.status) ==> PaymentStatuses.Settled(Next(l, step).payment.status)
    ensures Next(l, step).payment.applicationId == l.payment.applicationId
    ensures (step.Reserve? ==> Next(l, step).payment == l.payment)
  {
    hide Total;
  }

  lemma {:induction false} RunRightful(l: Ledger, steps: seq<Step>)
    requires Rightful(l) && Allowed(l, steps)
    ensures Rightful(Run(l, steps)) && Run(l, steps).payment.amount == l.payment.amount
    decreases |steps|
  {
    hide Next, Enabled, Rightful;
    if steps != [] {
      NextRightful(l, steps[0]);
      RunRightful(Next(l, steps[0]), steps[1..]);
    }
  }

  /** Over every run, whatever is reported of the payment: only a payment that was paid has refunds, one that
      is not settled has none, each is for something and for no more than was paid, and no key is used twice. */
  lemma OnlyPaidIsRefunded(payment: Payment, steps: seq<Step>)
    requires Allowed(Ledger(payment, []), steps)
    ensures var l := Run(Ledger(payment, []), steps);
      && (l.refunds != [] ==>
            l.payment.status == PaymentStatuses.Paid || l.payment.status == PaymentStatuses.Refunded
            || l.payment.status == PaymentStatuses.PartiallyRefunded)
      && (!PaymentStatuses.Settled(l.payment.status) ==> l.refunds == [])
      && (forall i :: 0 <= i < |l.refunds| ==> 0 < l.refunds[i].amount <= payment.amount)
      && (forall i, j :: 0 <= i < j < |l.refunds| ==> l.refunds[i].key != l.refunds[j].key)
  {
    RunRightful(Ledger(payment, []), steps);
    hide Run, Allowed;
  }

  // ---- refunding everything ----

  /** The succeeded refunds other than one. */
  function Others(l: Ledger, i: nat): int
    requires i < |l.refunds|
  {
    Total(l.refunds, Succeeded) - Share(l.refunds[i], Succeeded)
  }

  lemma NextKeeps(l: Ledger, step: Step, i: nat)
    requires Sound(l.refunds, l.payment.amount) && i < |l.refunds| && Enabled(l, step)
    ensures var l' := Next(l, step);
      && i < |l'.refunds| && l'.refunds[i].amount == l.refunds[i].amount && l'.payment.amount == l.payment.amount
      && Others(l, i) <= Others(l', i) && Sound(l'.refunds, l.payment.amount)
  {
    hide Total;
    match step
    case Reserve(input) =>
      if Reserved(l, input).Ok? {
        TotalAppend(l.refunds, Reserved(l, input).value.refunds[|l.refunds|], Succeeded);
        ReservedSound(l, input);
      }
    case Made(j) => TotalUpdate(l.refunds, j, l.refunds[j].(status := Succeeded), Succeeded);
    case Errored(j) => TotalUpdate(l.refunds, j, l.refunds[j].(status := Failed), Succeeded);
    case Apply(_, _) =>
    case Report(_, _) =>
  }

  lemma ReservedSound(l: Ledger, input: Input)
    requires Sound(l.refunds, l.payment.amount) && Reserved(l, input).Ok?
    ensures Sound(Reserved(l, input).value.refunds, l.payment.amount)
  {
    TotalIsNotNegative(l.refunds, l.payment.amount);
  }

  lemma {:induction false} TotalIsNotNegative(refunds: seq<Refund>, amount: int)
    requires Sound(refunds, amount)
    ensures Total(refunds, Succeeded) >= 0
  {
    if refunds != [] {
      TotalIsNotNegative(refunds[..|refunds| - 1], amount);
    }
  }

  lemma {:induction false} RunKeeps(l: Ledger, steps: seq<Step>, i: nat)
    requires Sound(l.refunds, l.payment.amount) && i < |l.refunds| && Allowed(l, steps)
    ensures var l' := Run(l, steps);
      i < |l'.refunds| && l'.refunds[i].amount == l.refunds[i].amount && l'.payment.amount == l.payment.amount
      && Others(l, i) <= Others(l', i)
    decreases |steps|
  {
    hide Next, Enabled, Others, Sound;
    if steps != [] {
      NextKeeps(l, steps[0], i);
      RunKeeps(Next(l, steps[0]), steps[1..], i);
    }
  }

  /** A refund of everything that is left, once made, leaves nothing to refund, whatever was reserved
      or answered in between; every later request is refused. */
  lemma EverythingIsEverything(l: Ledger, input: Input, steps: seq<Step>, later: Input)
    requires Sound(l.refunds, l.payment.amount) && input.amount == 0 && Reserved(l, input).Ok?
    requires Allowed(Reserved(l, input).value, steps)
    requires var l' := Run(Reserved(l, input).value, steps);
      |l.refunds| < |l'.refunds| && l'.refunds[|l.refunds|].status == Succeeded
    ensures var l' := Run(Reserved(l, input).value, steps); Available(l') <= 0 && Reserved(l', later).Err?
  {
    var i, reserved := |l.refunds|, Reserved(l, input).value;
    ReservedSound(l, input);
    TotalAppend(l.refunds, reserved.refunds[i], Succeeded);
    RunKeeps(reserved, steps, i);
    hide Run, Allowed, Total;
  }

  // ---- the payment after its refunds ----

  /** The payment takes the status the gateway reports, or else the one its total, or else the refunds made,
      stand for, if it may move there.  The stored amount follows, and an event is published, only then: a
      further partial refund of a partially refunded payment is no change of status, leaves the amount of
      the first and is not announced. */
  lemma PaymentFollowsRefunds(l: Ledger, answer: Answer, now: Time)
    ensures var p, q := l.payment, AppliedToPayment(l, answer, now).payment;
      var made := if answer.total == 0 then Total(l.refunds, Succeeded) else answer.total;
      var status :=
        if answer.paymentStatus.Some? then answer.paymentStatus.value
        else if made < p.amount then PaymentStatuses.PartiallyRefunded
        else PaymentStatuses.Refunded;
      var moves := PaymentStatuses.CanTransitionTo(p.status, status);
      && (q.status == status <==> moves || p.status == status) && (q.status == p.status <==> !moves)
      && (q.refundedAmount == made <==> moves || p.refundedAmount == made)
      && PaymentEvent(l, answer, now) == (if moves then Some(status) else None)
      && (PaymentStatuses.Settled(p.status) && answer.paymentStatus.None? ==> q.status == status)
      && (moves ==> q.gatewayStatus == answer.word && q.updatedAt == now) && (!moves ==> q == p)
      && (moves && (status == PaymentStatuses.Refunded || status == PaymentStatuses.PartiallyRefunded) ==>
            q.refundedAt == if p.refundedAt.None? then Some(now) else p.refundedAt)
  {
    hide Total;
  }
}
