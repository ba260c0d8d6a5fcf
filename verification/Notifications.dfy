/** Gateway notifications: verified, recorded once under their key, applied to the payment they are
    about, and announced. */
module Notifications {
  import opened Wrappers
  import opened PaymentStatuses
  import opened Payments
  import Events
  import GoStrings

  datatype Routing = Routed | Duplicate | Unrouted | Rejected | Ignored

  /** One request from a gateway: whether it could be parsed, whether its signature checked out, and
      what it says. */
  datatype Notification = Notification(
    parsed: bool, verified: bool, gateway: string, orderId: string, transactionId: string, word: string,
    key: string, status: Option<Status>, occurredAt: Option<Time>)

  datatype Record = Record(verified: bool, routing: Routing, paymentId: Option<string>, processed: bool)

  datatype ProcessError = Unparsable | AlreadyRecorded

  /** Records by gateway and key, payments by gateway and order, and the keys of published events. */
  datatype State = State(
    records: map<(string, string), Record>, payments: map<(string, string), Payment>, announced: set<string>)

  function Order(n: Notification): (string, string) { (n.gateway, n.orderId) }

  function Key(n: Notification): (string, string) { (n.gateway, n.key) }

  function UpdateFrom(n: Notification, status: Status): StateUpdate {
    StateUpdate(status, n.word, n.transactionId, None, n.occurredAt, false)
  }

  function EventKey(p: Payment): string {
    Events.PaymentDedupeKey(p.id, Events.TypeForStatus(p.status), "")
  }

  /** The notification moves the payment it is about. */
  predicate Takes(s: State, n: Notification) {
    && n.parsed && n.verified && Key(n) !in s.records && Order(n) in s.payments && n.status.Some?
    && CanTransitionTo(s.payments[Order(n)].status, n.status.value)
  }

  /** The processor over its three tables. */
  class Processor {
    var records: map<(string, string), Record>
    var payments: map<(string, string), Payment>
    var announced: set<string>

    ghost function Tables(): State
      reads this
    {
      State(records, payments, announced)
    }

    constructor (payments: map<(string, string), Payment>)
      ensures Tables() == State(map[], payments, {})
    {
      records, this.payments, announced := map[], payments, {};
    }

    method MarkProcessed(key: (string, string), routing: Routing)
      requires key in records
      modifies this`records
      ensures records == old(records)[key := old(records)[key].(routing := routing, processed := true)]
    {
      records := records[key := records[key].(routing := routing, processed := true)];
    }

    /** Verified or not, a notification is recorded once under its key; only a verified one that is the
        first with its key, about a known order and to an allowed status changes a payment, and its new
        status is then announced. */
    method Process(n: Notification, now: Time) returns (r: Result<Routing, ProcessError>)
      modifies this
      ensures Tables() == Processed(old(Tables()), n, now)
      ensures r == Verdict(old(Tables()), n)
    {
      if !n.parsed {
        return Err(Unparsable);
      }
      if !n.verified {
        if Key(n) in records {
          return Err(AlreadyRecorded);
        }
        records := records[Key(n) := Record(false, Rejected, None, false)];
        return Ok(Rejected);
      }
      var known := Order(n) in payments;
      if Key(n) in records {
        return Ok(Duplicate);
      }
      records := records[Key(n) := Record(true, if known then Routed else Unrouted,
                                          if known then Some(payments[Order(n)].id) else None, false)];
      if !known {
        return Ok(Unrouted);
      }
      r := Apply(n, now);
    }

    method Apply(n: Notification, now: Time) returns (r: Result<Routing, ProcessError>)
      requires Key(n) in records && Order(n) in payments
      modifies this
      ensures var s := old(Tables());
        match Outcome(s, n)
        case None =>
          Tables() == s.(records := s.records[Key(n) := s.records[Key(n)].(routing := Ignored, processed := true)]) && r == Ok(Ignored)
        case Some(status) =>
          var p := Advance(s.payments[Order(n)], UpdateFrom(n, status), now);
          var routing := if EventKey(p) in s.announced then Duplicate else Routed;
          Tables() == State(s.records[Key(n) := s.records[Key(n)].(routing := routing, processed := true)],
                            s.payments[Order(n) := p], s.announced + {EventKey(p)})
          && r == Ok(routing)
    {
      if n.status.None? {
        MarkProcessed(Key(n), Ignored);
        return Ok(Ignored);
      }
      var updated := Applied(payments[Order(n)], UpdateFrom(n, n.status.value), now);
      if updated.Err? {
        MarkProcessed(Key(n), Ignored);
        return Ok(Ignored);
      }
      payments := payments[Order(n) := updated.value];
      var key := EventKey(updated.value);
      var routing := Routed;
      if key in announced {
        routing := Duplicate;
      }
      announced := announced + {key};
      MarkProcessed(Key(n), routing);
      return Ok(routing);
    }
  }

  /** The status a notification would bring its payment to. */
  function Outcome(s: State, n: Notification): Option<Status>
    requires Order(n) in s.payments
  {
    if n.status.Some? && CanTransitionTo(s.payments[Order(n)].status, n.status.value) then n.status else None
  }

  function Processed(s: State, n: Notification, now: Time): State {
    if !n.parsed || Key(n) in s.records then s
    else if !n.verified then s.(records := s.records[Key(n) := Record(false, Rejected, None, false)])
    else if Order(n) !in s.payments then s.(records := s.records[Key(n) := Record(true, Unrouted, None, false)])
    else
      var id := Some(s.payments[Order(n)].id);
      match Outcome(s, n)
      case None => s.(records := s.records[Key(n) := Record(true, Ignored, id, true)])
      case Some(status) =>
        var p := Advance(s.payments[Order(n)], UpdateFrom(n, status), now);
        State(s.records[Key(n) := Record(true, if EventKey(p) in s.announced then Duplicate else Routed, id, true)],
              s.payments[Order(n) := p], s.announced + {EventKey(p)})
  }

  function Verdict(s: State, n: Notification): Result<Routing, ProcessError> {
    if !n.parsed then Err(Unparsable)
    else if Key(n) in s.records then (if n.verified then Ok(Duplicate) else Err(AlreadyRecorded))
    else if !n.verified then Ok(Rejected)
    else if Order(n) !in s.payments then Ok(Unrouted)
    else
      match Outcome(s, n)
      case None => Ok(Ignored)
      case Some(status) =>
        Ok(if EventKey(Advance(s.payments[Order(n)], UpdateFrom(n, status), 0)) in s.announced then Duplicate else Routed)
  }

  // ---- over any run of notifications ----

  function AfterAll(s: State, ns: seq<(Notification, Time)>): State {
    if ns == [] then s else Processed(AfterAll(s, ns[..|ns| - 1]), ns[|ns| - 1].0, ns[|ns| - 1].1)
  }

  /** A payment changes exactly when a notification takes, and then only the one it is about. */
  lemma OnlyTakenNotificationsTouch(s: State, n: Notification, now: Time)
    ensures var s' := Processed(s, n, now);
      s'.payments == (if Takes(s, n) then s.payments[Order(n) := Advance(s.payments[Order(n)], UpdateFrom(n, n.status.value), now)]
                      else s.payments)
    ensures !Takes(s, n) ==> Processed(s, n, now).announced == s.announced
  {
    hide CanTransitionTo;
  }

  /** How a notification is answered and recorded: what cannot be parsed is an error and leaves no record, one
      whose key is taken is a duplicate if it is verified and an error if not, and any other is recorded under
      its key with what it was answered. */
  lemma RoutingIsExact(s: State, n: Notification, now: Time)
    ensures var s', r := Processed(s, n, now), Verdict(s, n);
      var first, known := n.parsed && Key(n) !in s.records, Order(n) in s.payments;
      && (r == Err(Unparsable) <==> !n.parsed)
      && (r == Err(AlreadyRecorded) <==> n.parsed && !first && !n.verified)
      && (r == Ok(Rejected) <==> first && !n.verified)
      && (r == Ok(Unrouted) <==> first && n.verified && !known)
      && (r == Ok(Ignored) <==> first && n.verified && known && !Takes(s, n))
      && (r == Ok(Routed) <==> Takes(s, n) && Announcement(s, n) !in s.announced)
      && (r == Ok(Duplicate) <==> (n.parsed && n.verified && !first) || (Takes(s, n) && Announcement(s, n) in s.announced))
      && s'.records == if !first then s.records
                       else s.records[Key(n) := Record(n.verified, r.value, if n.verified && known then Some(s.payments[Order(n)].id) else None,
                                                       n.verified && known)]
  {
    if Takes(s, n) {
      AnnouncementIs(s, n, now);
      AnnouncementIs(s, n, 0);
    }
    hide CanTransitionTo, EventKey, Announcement, Advance;
  }

  /** The key of the event that announces a payment's new status. */
  function Announcement(s: State, n: Notification): string
    requires Takes(s, n)
  {
    "payment:" + s.payments[Order(n)].id + ":payment." + GoStrings.ToLower(NameOf(n.status.value))
  }

  lemma AnnouncementIs(s: State, n: Notification, now: Time)
    requires Takes(s, n)
    ensures EventKey(Advance(s.payments[Order(n)], UpdateFrom(n, n.status.value), now)) == Announcement(s, n)
  {
    var id, name := s.payments[Order(n)].id, GoStrings.ToLower(NameOf(n.status.value));
    Events.TypeIsTheName(n.status.value);
    assert "payment:" + id + ":" + ("payment." + name) == "payment:" + id + ":payment." + name;
    hide Events.TypeForStatus, GoStrings.ToLower, NameOf;
  }

  /** What a notification that takes makes of its payment, column by column, and the one event it announces. */
  lemma TakenIsApplied(s: State, n: Notification, now: Time)
    requires Takes(s, n)
    ensures var s', p := Processed(s, n, now), s.payments[Order(n)]; var status := n.status.value;
      var at := if n.occurredAt.Some? then n.occurredAt.value else now;
      && Order(n) in s'.payments && s'.payments == s.payments[Order(n) := s'.payments[Order(n)]]
      && s'.announced == s.announced + {Announcement(s, n)}
      && s'.payments[Order(n)]
         == p.(status := status, gatewayStatus := n.word, updatedAt := now,
               transactionId := if n.transactionId == "" then p.transactionId else n.transactionId,
               paidAt := if status == Paid && p.paidAt.None? then Some(at) else p.paidAt,
               canceledAt := if status == Canceled && p.canceledAt.None? then Some(at) else p.canceledAt,
               expiredAt := if status == Expired && p.expiredAt.None? then Some(at) else p.expiredAt,
               refundedAt := if (status == Refunded || status == PartiallyRefunded) && p.refundedAt.None? then Some(at) else p.refundedAt)
  {
    AnnouncementIs(s, n, now);
    hide CanTransitionTo, EventKey, Announcement;
  }

  /** Whatever arrives, a payment whose status changed has that status announced. */
  lemma {:induction false} ChangedStatusIsAnnounced(s: State, ns: seq<(Notification, Time)>, order: (string, string))
    requires order in s.payments
    ensures var s' := AfterAll(s, ns);
      order in s'.payments && s'.payments[order].id == s.payments[order].id
      && (s'.payments[order].status == s.payments[order].status || EventKey(s'.payments[order]) in s'.announced)
      && s.announced <= s'.announced
  {
    hide CanTransitionTo, EventKey;
    if ns != [] {
      ChangedStatusIsAnnounced(s, ns[..|ns| - 1], order);
    }
  }

  /** Forged notifications, however many, change no payment and announce nothing. */
  lemma {:induction false} ForgeriesChangeNothing(s: State, ns: seq<(Notification, Time)>)
    requires forall i :: 0 <= i < |ns| ==> !ns[i].0.verified
    ensures AfterAll(s, ns).payments == s.payments && AfterAll(s, ns).announced == s.announced
  {
    if ns != [] {
      ForgeriesChangeNothing(s, ns[..|ns| - 1]);
    }
  }

  // ---- redelivered and reordered ----

  /** A genuine report about a payment. */
  predicate Reports(n: Notification, order: (string, string)) {
    n.parsed && n.verified && Order(n) == order && n.status.Some?
  }

  predicate Under(n: Notification, key: (string, string)) { n.parsed && Key(n) == key }

  /** An unverified notification came before it under the same key. */
  predicate Shadowed(ns: seq<(Notification, Time)>, i: nat)
    requires i < |ns|
  {
    exists j :: 0 <= j < i && Under(ns[j].0, Key(ns[i].0)) && !ns[j].0.verified
  }

  /** The reports that count: the genuine ones that were not shadowed. */
  function ReportsOf(ns: seq<(Notification, Time)>, order: (string, string)): seq<Status> {
    if ns == [] then []
    else
      var k := |ns| - 1;
      ReportsOf(ns[..k], order)
      + (if Reports(ns[k].0, order) && !Shadowed(ns, k) then [ns[k].0.status.value] else [])
  }

  /** A gateway's key stands for one report: genuine notifications under one key say the same. */
  ghost predicate KeysNameReports(ns: seq<(Notification, Time)>) {
    forall i, j :: 0 <= i < |ns| && 0 <= j < |ns| && Genuine(ns[i].0) && Genuine(ns[j].0) && Key(ns[i].0) == Key(ns[j].0) ==>
      (ns[i].0.orderId == ns[j].0.orderId && ns[i].0.status == ns[j].0.status)
  }

  predicate Genuine(n: Notification) { n.parsed && n.verified }

  ghost predicate FirstUnder(ns: seq<(Notification, Time)>, i: int, key: (string, string)) {
    0 <= i < |ns| && Under(ns[i].0, key) && forall j :: 0 <= j < i ==> !Under(ns[j].0, key)
  }

  lemma {:induction false} SomeIsFirst(ns: seq<(Notification, Time)>, i: nat, key: (string, string)) returns (first: nat)
    requires i < |ns| && Under(ns[i].0, key)
    ensures first <= i && FirstUnder(ns, first, key)
  {
    if j :| 0 <= j < i && Under(ns[j].0, key) {
      first := SomeIsFirst(ns, j, key);
    } else {
      first := i;
    }
  }

  lemma ProcessedRecord(s: State, n: Notification, now: Time, key: (string, string))
    ensures var s' := Processed(s, n, now);
      && (key in s'.records <==> key in s.records || Under(n, key))
      && (key in s.records ==> s'.records[key] == s.records[key])
      && (key !in s.records && Under(n, key) ==> s'.records[key].verified == n.verified)
  {
    hide CanTransitionTo;
  }

  /** A key is recorded as the first notification under it was, for good. */
  lemma {:induction false} RecordIsTheFirst(s: State, ns: seq<(Notification, Time)>, key: (string, string))
    requires s.records == map[]
    ensures key in AfterAll(s, ns).records <==> exists i :: 0 <= i < |ns| && Under(ns[i].0, key)
    ensures forall i :: FirstUnder(ns, i, key) ==>
      key in AfterAll(s, ns).records && AfterAll(s, ns).records[key].verified == ns[i].0.verified
  {
    if ns != [] {
      var k := |ns| - 1;
      var before := AfterAll(s, ns[..k]);
      RecordIsTheFirst(s, ns[..k], key);
      ProcessedRecord(before, ns[k].0, ns[k].1, key);
      var after := AfterAll(s, ns);
      assert after == Processed(before, ns[k].0, ns[k].1);
      hide Processed, Under;
      if key in before.records {
        var i :| 0 <= i < k && Under(ns[..k][i].0, key);
        assert Under(ns[i].0, key);
      } else {
        assert forall i :: 0 <= i < k ==> ns[i] == ns[..k][i];
      }
      forall i | FirstUnder(ns, i, key)
        ensures key in after.records && after.records[key].verified == ns[i].0.verified
      {
        if i < k {
          FirstBefore(ns, i, key);
        }
      }
    }
  }

  lemma FirstBefore(ns: seq<(Notification, Time)>, i: nat, key: (string, string))
    requires FirstUnder(ns, i, key) && i < |ns| - 1
    ensures FirstUnder(ns[..|ns| - 1], i, key)
  {
  }

  /** A genuine report counts, itself or an earlier copy of it, exactly when its key was first recorded
      by a genuine notification. */
  lemma CountsExactly(s: State, ns: seq<(Notification, Time)>, i: nat, order: (string, string))
    requires s.records == map[] && i < |ns| && Reports(ns[i].0, order)
    ensures Key(ns[i].0) in AfterAll(s, ns).records
    ensures AfterAll(s, ns).records[Key(ns[i].0)].verified
      <==> exists j :: 0 <= j < |ns| && Under(ns[j].0, Key(ns[i].0)) && ns[j].0.verified && !Shadowed(ns, j)
  {
    var key := Key(ns[i].0);
    var first := SomeIsFirst(ns, i, key);
    RecordIsTheFirst(s, ns, key);
    hide AfterAll;
    if ns[first].0.verified {
      assert !Shadowed(ns, first);
    }
    forall j | 0 <= j < |ns| && Under(ns[j].0, key) && ns[j].0.verified && !Shadowed(ns, j)
      ensures ns[first].0.verified
    {
      assert first <= j;
    }
  }

  lemma {:induction false} SeenIsReported(ns: seq<(Notification, Time)>, i: nat, order: (string, string))
    requires i < |ns| && Reports(ns[i].0, order) && !Shadowed(ns, i)
    ensures ns[i].0.status.value in ReportsOf(ns, order)
  {
    var k := |ns| - 1;
    if i < k {
      NotShadowedBefore(ns, i);
      SeenIsReported(ns[..k], i, order);
    }
  }

  lemma NotShadowedBefore(ns: seq<(Notification, Time)>, i: nat)
    requires i < |ns| - 1
    ensures Shadowed(ns[..|ns| - 1], i) == Shadowed(ns, i)
  {
    var shorter := ns[..|ns| - 1];
    assert forall j :: 0 <= j <= i ==> shorter[j] == ns[j];
  }

  lemma PaymentAfter(s: State, n: Notification, now: Time, order: (string, string))
    requires order in s.payments
    ensures var s' := Processed(s, n, now);
      order in s'.payments
      && s'.payments[order].status
         == (if Reports(n, order) && Key(n) !in s.records && CanTransitionTo(s.payments[order].status, n.status.value)
             then n.status.value else s.payments[order].status)
  {
    hide CanTransitionTo;
  }

  lemma LatestReport(s: Status, reports: seq<Status>, next: Status, s': Status)
    requires IsHighest(s, reports) && Consistent(reports + [next])
    requires s' == (if CanTransitionTo(s, next) then next else s) || (s' == s && next in reports)
    ensures IsHighest(s', reports + [next])
  {
    var all := reports + [next];
    assert forall r :: r in reports ==> r in all;
    assert next in all;
    assert s == Pending || (s in all && !Conflict(s, next));
    OneMoreReport(s, next);
    hide CanTransitionTo, Rank, Conflict;
  }

  lemma ShorterConsistent(reports: seq<Status>, more: seq<Status>)
    requires Consistent(reports + more)
    ensures Consistent(reports)
  {
    var all := reports + more;
    assert forall r :: r in reports ==> r in all;
    hide Conflict;
  }

  /** Whatever else arrives in between, forgeries under the same keys included: a payment ends in the
      highest-ranked of the reports that count, if those do not conflict, however often and in whatever
      order they are redelivered. */
  lemma {:induction false} ReportsLeaveTheHighest(s: State, ns: seq<(Notification, Time)>, order: (string, string))
    requires s.records == map[] && order in s.payments && s.payments[order].status == Pending
    requires KeysNameReports(ns) && Consistent(ReportsOf(ns, order))
    ensures order in AfterAll(s, ns).payments
    ensures IsHighest(AfterAll(s, ns).payments[order].status, ReportsOf(ns, order))
  {
    if ns != [] {
      var k := |ns| - 1;
      var before, n := AfterAll(s, ns[..k]), ns[k].0;
      var reports := ReportsOf(ns[..k], order);
      ShorterConsistent(reports, if Reports(n, order) && !Shadowed(ns, k) then [n.status.value] else []);
      ReportsLeaveTheHighest(s, ns[..k], order);
      PaymentAfter(before, n, ns[k].1, order);
      KeyBefore(s, ns, order);
      hide KeysNameReports, IsHighest, Consistent, CanTransitionTo, Processed, Shadowed;
      if Reports(n, order) && !Shadowed(ns, k) {
        LatestReport(before.payments[order].status, reports, n.status.value, AfterAll(s, ns).payments[order].status);
      }
    }
  }

  /** A report that comes under a key already recorded was counted the first time, or is shadowed; one
      under a new key is not shadowed. */
  lemma KeyBefore(s: State, ns: seq<(Notification, Time)>, order: (string, string))
    requires s.records == map[] && ns != [] && KeysNameReports(ns)
    ensures var k := |ns| - 1; var n := ns[k].0; var before := AfterAll(s, ns[..k]);
      Reports(n, order) ==>
        (if Key(n) in before.records then Shadowed(ns, k) || n.status.value in ReportsOf(ns[..k], order)
         else !Shadowed(ns, k))
  {
    var k := |ns| - 1;
    var n, shorter := ns[k].0, ns[..k];
    if Reports(n, order) {
      RecordIsTheFirst(s, shorter, Key(n));
      hide AfterAll;
      assert forall j :: 0 <= j < k ==> shorter[j] == ns[j];
      if i :| 0 <= i < k && Under(shorter[i].0, Key(n)) {
        var first := SomeIsFirst(shorter, i, Key(n));
        if ns[first].0.verified {
          assert Genuine(ns[first].0) && Genuine(n);
          SeenIsReported(shorter, first, order);
        } else {
          assert Under(ns[first].0, Key(n));
        }
      }
    }
  }

  /** A report under a key that a forgery took first changes nothing. */
  lemma ShadowedIsIgnored(s: State, ns: seq<(Notification, Time)>)
    requires s.records == map[] && ns != [] && Shadowed(ns, |ns| - 1)
    ensures AfterAll(s, ns) == AfterAll(s, ns[..|ns| - 1])
  {
    var k := |ns| - 1;
    RecordIsTheFirst(s, ns[..k], Key(ns[k].0));
    var j :| 0 <= j < k && Under(ns[j].0, Key(ns[k].0)) && !ns[j].0.verified;
    assert ns[..k][j] == ns[j];
  }

  /** The input for it: a report that would move a payment does not, if a forged copy came before. */
  lemma ForgedKeyBlocks(s: State, n: Notification, first: Time, later: Time)
    requires s.records == map[] && Takes(s, n)
    ensures var alone := AfterAll(s, [(n, later)]);
      Order(n) in alone.payments && alone.payments[Order(n)].status == n.status.value != s.payments[Order(n)].status
    ensures AfterAll(s, [(n.(verified := false), first), (n, later)]).payments == s.payments
  {
    var forged := n.(verified := false);
    var both := [(forged, first), (n, later)];
    assert [(n, later)][..0] == [] && both[..1] == [(forged, first)] && both[..1][..0] == [];
    assert AfterAll(s, both[..1]) == Processed(s, forged, first);
    hide CanTransitionTo;
  }
}
