/** The payment state machine: statuses ranked by how far through the lifecycle they are. */
module PaymentStatuses {
  datatype Status = Pending | Authorized | Paid | Failed | Canceled | Expired | Refunded | PartiallyRefunded

  predicate Terminal(s: Status) { s == Failed || s == Canceled || s == Expired || s == Refunded }

  predicate Settled(s: Status) { s == Paid || s == Refunded || s == PartiallyRefunded }

  function Rank(s: Status): int {
    match s
    case Pending => 10
    case Authorized => 20
    case Failed => 30
    case Canceled => 30
    case Expired => 30
    case Paid => 40
    case PartiallyRefunded => 50
    case Refunded => 60
  }

  /** A payment never moves backwards and never leaves a failure; a settled one may only be refunded. */
  predicate CanTransitionTo(s: Status, next: Status) {
    if s == next then false
    else if Settled(s) then next == PartiallyRefunded || next == Refunded
    else if Terminal(s) then false
    else Rank(next) > Rank(s)
  }

  /** The moves the ranks leave: onwards until the payment is paid or fails, and between the two refund states
      once it is paid. */
  lemma MovesAre(s: Status, next: Status)
    ensures CanTransitionTo(s, next) <==>
      match s
      case Pending => next != Pending
      case Authorized => next != Pending && next != Authorized
      case Paid => next == PartiallyRefunded || next == Refunded
      case PartiallyRefunded => next == Refunded
      case Refunded => next == PartiallyRefunded
      case _ => false
  {
  }

  /** As stored and as reported to applications. */
  function NameOf(s: Status): string {
    match s
    case Pending => "PENDING"
    case Authorized => "AUTHORIZED"
    case Paid => "PAID"
    case Failed => "FAILED"
    case Canceled => "CANCELED"
    case Expired => "EXPIRED"
    case Refunded => "REFUNDED"
    case PartiallyRefunded => "PARTIALLY_REFUNDED"
  }

  const ALL_STATUSES: seq<Status> := [Pending, Authorized, Failed, Canceled, Expired, Paid, PartiallyRefunded, Refunded]

  lemma AllAreListed()
    ensures forall s: Status :: s in ALL_STATUSES
    ensures forall i, j :: 0 <= i < j < |ALL_STATUSES| ==>
      ALL_STATUSES[i] != ALL_STATUSES[j] && Rank(ALL_STATUSES[i]) <= Rank(ALL_STATUSES[j])
  {
    forall s: Status ensures s in ALL_STATUSES {
      match s
      case Pending => assert ALL_STATUSES[0] == s;
      case Authorized => assert ALL_STATUSES[1] == s;
      case Failed => assert ALL_STATUSES[2] == s;
      case Canceled => assert ALL_STATUSES[3] == s;
      case Expired => assert ALL_STATUSES[4] == s;
      case Paid => assert ALL_STATUSES[5] == s;
      case PartiallyRefunded => assert ALL_STATUSES[6] == s;
      case Refunded => assert ALL_STATUSES[7] == s;
    }
  }

  /** The starting statuses handed to the database, in order of rank. */
  method PredecessorsOf(next: Status) returns (out: seq<Status>)
    ensures forall s :: s in out <==> CanTransitionTo(s, next)
    ensures forall i, j :: 0 <= i < j < |out| ==> out[i] != out[j] && Rank(out[i]) <= Rank(out[j])
  {
    AllAreListed();
    hide ALL_STATUSES, CanTransitionTo, Rank;
    out := [];
    for i := 0 to |ALL_STATUSES|
      invariant forall s :: s in out <==> s in ALL_STATUSES[..i] && CanTransitionTo(s, next)
      invariant forall j, k :: 0 <= j < k < |out| ==> out[j] != out[k] && Rank(out[j]) <= Rank(out[k])
    {
      var s := ALL_STATUSES[i];
      forall k | 0 <= k < |out| ensures out[k] != s && Rank(out[k]) <= Rank(s) {
        assert out[k] in ALL_STATUSES[..i];
      }
      if CanTransitionTo(s, next) {
        out := out + [s];
      }
    }
    assert ALL_STATUSES[..|ALL_STATUSES|] == ALL_STATUSES;
  }
}
