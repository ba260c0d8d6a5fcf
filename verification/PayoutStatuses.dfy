/** The payout state machine: an explicit table of allowed moves. */
module PayoutStatuses {

  datatype PayoutStatus =
    | Requested
    | Approved
    | Submitted
    | Unresolved
    | Completed
    | Failed
    | Rejected

  const ALL_STATUSES: set<PayoutStatus> :=
    {Requested, Approved, Submitted, Unresolved, Completed, Failed, Rejected}

  function Successors(s: PayoutStatus): seq<PayoutStatus> {
    match s
    case Requested => [Approved, Rejected, Failed]
    case Approved => [Submitted, Failed, Unresolved]
    case Submitted => [Completed, Failed]
    case Unresolved => [Submitted, Completed, Failed]
    case Completed => []
    case Failed => []
    case Rejected => []
  }

  function Rank(s: PayoutStatus): int {
    match s
    case Requested => 10
    case Approved => 20
    case Submitted => 30
    case Unresolved => 35
    case Completed => 40
    case Failed => 40
    case Rejected => 40
  }

  predicate Terminal(s: PayoutStatus) { |Successors(s)| == 0 }

  predicate Settled(s: PayoutStatus) { s == Submitted || s == Completed }

  predicate InFlight(s: PayoutStatus) { s == Approved || s == Submitted || s == Unresolved }

  predicate CanTransitionTo(s: PayoutStatus, next: PayoutStatus) {
    s != next && next in Successors(s)
  }

  /** All moves there are. */
  lemma MovesAre(s: PayoutStatus, next: PayoutStatus)
    ensures CanTransitionTo(s, next) <==>
      (next == Approved && s == Requested)
      || (next == Rejected && s == Requested)
      || (next == Unresolved && s == Approved)
      || (next == Submitted && (s == Approved || s == Unresolved))
      || (next == Completed && (s == Submitted || s == Unresolved))
      || (next == Failed && (s == Requested || s == Approved || s == Submitted || s == Unresolved))
  {
  }

  lemma EdgesOf(s: PayoutStatus, next: PayoutStatus)
    ensures CanTransitionTo(s, next) <==> next in Successors(s)
    ensures forall i, j :: 0 <= i < j < |Successors(s)| ==> Successors(s)[i] != Successors(s)[j]
  {
  }

  /** Collects the statuses from which `next` may be reached.  The table is a Go map, so the
      outer loop visits its keys in no particular order. */
  method PredecessorsOf(next: PayoutStatus) returns (out: seq<PayoutStatus>)
    ensures forall s :: s in out <==> CanTransitionTo(s, next)
    ensures forall i, j :: 0 <= i < j < |out| ==> out[i] != out[j]
  {
    hide Successors;
    out := [];
    var todo := ALL_STATUSES;
    while todo != {}
      invariant forall s :: s in out <==> s !in todo && CanTransitionTo(s, next)
      invariant forall i, j :: 0 <= i < j < |out| ==> out[i] != out[j]
      decreases todo
    {
      var from :| from in todo;
      var successors := Successors(from);
      EdgesOf(from, next);
      ghost var before := out;
      for i := 0 to |successors|
        invariant next in successors[..i] ==> out == before + [from]
        invariant next !in successors[..i] ==> out == before
      {
        if successors[i] == next {
          out := out + [from];
        }
      }
      todo := todo - {from};
    }
  }

  /** How many moves at most lie behind a status.  Unlike Rank it rises along every move,
      including the one from Unresolved to Submitted. */
  function Depth(s: PayoutStatus): nat {
    match s
    case Requested => 0
    case Approved => 1
    case Unresolved => 2
    case Submitted => 3
    case Completed => 4
    case Failed => 4
    case Rejected => 4
  }

  ghost predicate IsPath(path: seq<PayoutStatus>) {
    forall i :: 0 < i < |path| ==> CanTransitionTo(path[i - 1], path[i])
  }

  lemma {:induction false} PathRises(path: seq<PayoutStatus>, i: nat, j: nat)
    requires IsPath(path) && i < j < |path|
    ensures Depth(path[i]) + (j - i) <= Depth(path[j])
    decreases j
  {
    assert CanTransitionTo(path[j - 1], path[j]);
    if i < j - 1 {
      PathRises(path, i, j - 1);
    }
  }

  /** A payout's history never revisits a status and has at most five entries. */
  lemma PathIsShort(path: seq<PayoutStatus>)
    requires IsPath(path)
    ensures forall i, j :: 0 <= i < j < |path| ==> path[i] != path[j]
    ensures |path| <= 5
  {
    forall i, j | 0 <= i < j < |path| ensures path[i] != path[j] {
      PathRises(path, i, j);
    }
    if |path| > 5 {
      PathRises(path, 0, 5);
    }
  }

  /** Rank would not do as the measure: one allowed move lowers it. */
  lemma RankFallsOnlyOnLateSubmission(s: PayoutStatus, next: PayoutStatus)
    requires CanTransitionTo(s, next)
    ensures Rank(next) <= Rank(s) <==> s == Unresolved && next == Submitted
  {
  }

  /** Being sent is past approval: once Approved is behind a payout it can no longer be
      waiting or rejected, and Unresolved is only ever reached through Approved. */
  lemma {:induction false} ApprovedIsBehind(path: seq<PayoutStatus>)
    requires IsPath(path) && |path| > 0 && (path[0] == Requested || path[0] == Approved)
    ensures Approved in path ==> path[|path| - 1] != Requested && path[|path| - 1] != Rejected
    ensures Unresolved in path ==> Approved in path
  {
    if |path| > 1 {
      var shorter := path[..|path| - 1];
      ApprovedIsBehind(shorter);
      assert CanTransitionTo(path[|path| - 2], path[|path| - 1]);
      assert path == shorter + [path[|path| - 1]];
      assert shorter[|shorter| - 1] in shorter;
    }
  }
}
