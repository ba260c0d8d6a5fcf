/** Publishing, delivering and reconfiguring destinations in any order: every event reaches exactly the
    destinations that wanted it when it was published. */
module FanOut {
  import opened Wrappers
  import opened Publishing
  import Events
  import PaymentStatuses
  import D = Deliveries
  import P = DeliveryProtocol

  /** `audience` keeps, for each event, who wanted it when it was published. */
  datatype World = World(log: Log, dests: map<string, Destination>, work: P.World, audience: map<string, set<string>>)

  datatype Step =
    | Publish(e: Event, listing: seq<string>, ids: seq<string>, fails: bool)
    | Configure(id: string, destination: Destination)
    | Deliver(step: P.Step)

  ghost predicate Enabled(w: World, step: Step) {
    match step
    case Publish(e, listing, ids, _) =>
      e.id !in w.log.events && IsListing(w.dests, listing, e) && |ids| == |listing| && NewIds(w.work.q, ids)
    case Configure(_, _) => true
    case Deliver(s) => P.Enabled(w.work, s) && !s.Enqueue?
  }

  function Audience(dests: map<string, Destination>, e: Event): set<string> {
    set id | id in dests && Wants(dests[id], e)
  }

  ghost function Next(w: World, step: Step): (w': World)
    requires D.Tidy(w.work.q) && Enabled(w, step)
    ensures D.Tidy(w'.work.q)
  {
    match step
    case Publish(e, listing, ids, fails) =>
      if fails then w
      else
        var r := AfterPublish(w.log, w.work.q, w.dests, e, listing, ids, w.work.now);
        w.(log := r.log, work := w.work.(q := r.queue),
           audience := if r.duplicate then w.audience else w.audience[e.id := Audience(w.dests, e)])
    case Configure(id, destination) => w.(dests := w.dests[id := destination])
    case Deliver(s) => w.(work := P.Next(w.work, s))
  }

  function Start(now: D.Time): World {
    World(Log(map[], map[]), map[], P.Start(now), map[])
  }

  ghost predicate Allowed(w: World, steps: seq<Step>)
    requires D.Tidy(w.work.q)
    decreases |steps|
  {
    steps == [] || (Enabled(w, steps[0]) && Allowed(Next(w, steps[0]), steps[1..]))
  }

  ghost function Run(w: World, steps: seq<Step>): (w': World)
    requires D.Tidy(w.work.q) && Allowed(w, steps)
    ensures D.Tidy(w'.work.q)
    decreases |steps|
  {
    if steps == [] then w else Run(Next(w, steps[0]), steps[1..])
  }

  /** A failed publish, and a repeated one, change nothing. */
  lemma NothingHalfDone(w: World, e: Event, listing: seq<string>, ids: seq<string>, fails: bool)
    requires D.Tidy(w.work.q) && Enabled(w, Publish(e, listing, ids, fails)) && (fails || KeyOf(e) in w.log.keys)
    ensures Next(w, Publish(e, listing, ids, fails)) == w
  {
    hide D.Tidy;
  }

  // ---- the invariant ----

  /** The queue holds a delivery for an event and a destination exactly if the destination was in the
      event's audience. */
  ghost predicate Reached(index: map<(string, string), string>, audience: map<string, set<string>>) {
    forall e, d :: (e, d) in index <==> e in audience && d in audience[e]
  }

  ghost predicate Logged(log: Log) {
    && (forall id :: id in log.events ==>
          log.events[id].id == id && KeyOf(log.events[id]) in log.keys && log.keys[KeyOf(log.events[id])] == id)
    && (forall key :: key in log.keys ==> log.keys[key] in log.events && KeyOf(log.events[log.keys[key]]) == key)
  }

  ghost predicate Good(w: World) {
    D.Tidy(w.work.q) && Logged(w.log) && w.audience.Keys == w.log.events.Keys && Reached(w.work.q.index, w.audience)
  }

  lemma EnqueuedIndex(q: D.Queue, d: D.Delivery)
    requires D.Tidy(q) && d.id !in q.rows
    ensures D.Enqueued(q, d).0.index.Keys == q.index.Keys + {D.Pair(d)}
  {
    hide D.Tidy;
  }

  lemma {:induction false} EnqueuedAllIndex(q: D.Queue, e: Event, dests: map<string, Destination>, listing: seq<string>, ids: seq<string>, now: D.Time)
    requires D.Tidy(q) && Ready(q, dests, listing, ids)
    ensures forall pair :: pair in EnqueuedAll(q, e, dests, listing, ids, now).index <==>
      pair in q.index || (pair.0 == e.id && pair.1 in listing)
  {
    if listing != [] {
      EnqueuedSplit(q, e, dests, listing, ids, now);
      var n := |listing| - 1;
      EnqueuedAllIndex(q, e, dests, listing[..n], ids[..n], now);
      var q1 := EnqueuedAll(q, e, dests, listing[..n], ids[..n], now);
      var d := Order(e, dests, listing[n], ids[n], now);
      assert D.Pair(d) == (e.id, listing[n]);
      EnqueuedIndex(q1, d);
      hide D.Tidy, Ready, EnqueuedAll, D.Enqueued, Order;
      assert listing == listing[..n] + [listing[n]];
    }
  }

  lemma EnqueuedSplit(q: D.Queue, e: Event, dests: map<string, Destination>, listing: seq<string>, ids: seq<string>, now: D.Time)
    requires D.Tidy(q) && Ready(q, dests, listing, ids) && listing != []
    ensures var n := |listing| - 1;
      |ids| == n + 1 && listing[n] in dests && Ready(q, dests, listing[..n], ids[..n])
      && Order(e, dests, listing[n], ids[n], now).id !in EnqueuedAll(q, e, dests, listing[..n], ids[..n], now).rows
      && EnqueuedAll(q, e, dests, listing, ids, now)
         == D.Enqueued(EnqueuedAll(q, e, dests, listing[..n], ids[..n], now), Order(e, dests, listing[n], ids[n], now)).0
  {
    var n := |listing| - 1;
    EnqueuedMore(q, e, dests, listing, ids, now, n);
    hide D.Tidy, EnqueuedAll, D.Enqueued;
    assert listing[..n + 1] == listing && ids[..n + 1] == ids;
  }

  lemma PublishKeepsLog(log: Log, e: Event)
    requires Logged(log) && e.id !in log.events && KeyOf(e) !in log.keys
    ensures Logged(Log(log.events[e.id := e], log.keys[KeyOf(e) := e.id]))
  {
    hide KeyOf;
  }

  lemma PublishReaches(w: World, e: Event, listing: seq<string>, ids: seq<string>)
    requires Good(w) && e.id !in w.log.events && IsListing(w.dests, listing, e) && Ready(w.work.q, w.dests, listing, ids)
    ensures Reached(EnqueuedAll(w.work.q, e, w.dests, listing, ids, w.work.now).index, w.audience[e.id := Audience(w.dests, e)])
  {
    EnqueuedAllIndex(w.work.q, e, w.dests, listing, ids, w.work.now);
    hide D.Tidy, Logged, EnqueuedAll, Wants, Ready;
    var index := EnqueuedAll(w.work.q, e, w.dests, listing, ids, w.work.now).index;
    var audience := w.audience[e.id := Audience(w.dests, e)];
    forall k, d ensures (k, d) in index <==> k in audience && d in audience[k] {
      assert (k, d) in index <==> (k, d) in w.work.q.index || (k == e.id && d in listing);
    }
  }

  lemma DeliverKeepsIndex(w: P.World, s: P.Step)
    requires D.Tidy(w.q) && P.Enabled(w, s) && !s.Enqueue?
    ensures P.Next(w, s).q.index == w.q.index
  {
    hide D.Tidy;
  }

  lemma NextGood(w: World, step: Step)
    requires Good(w) && Enabled(w, step)
    ensures Good(Next(w, step))
  {
    hide D.Tidy, Reached, Logged, EnqueuedAll, P.Next;
    match step
    case Configure(_, _) =>
    case Deliver(s) => DeliverKeepsIndex(w.work, s);
    case Publish(e, listing, ids, fails) =>
      if !fails && KeyOf(e) !in w.log.keys {
        PublishKeepsLog(w.log, e);
        PublishReaches(w, e, listing, ids);
      }
  }

  lemma {:induction false} RunGood(w: World, steps: seq<Step>)
    requires Good(w) && Allowed(w, steps)
    ensures Good(Run(w, steps))
    decreases |steps|
  {
    hide Enabled, Next, D.Tidy, Logged, Reached;
    if steps != [] {
      NextGood(w, steps[0]);
      RunGood(Next(w, steps[0]), steps[1..]);
    }
  }

  lemma StartGood(now: D.Time)
    ensures Good(Start(now))
  {
  }

  // ---- the promises ----

  ghost predicate Delivers(q: D.Queue, id: string, event: string, dest: string) {
    id in q.rows && q.rows[id].eventId == event && q.rows[id].destinationId == dest
  }

  /** In every reachable state: a stored event has a delivery for a destination exactly if the
      destination was in its audience, never two, and no delivery lacks its event. */
  lemma FanOutIsExact(start: D.Time, steps: seq<Step>, event: string, dest: string)
    requires Allowed(Start(start), steps)
    ensures var w := Run(Start(start), steps);
      (exists id :: Delivers(w.work.q, id, event, dest)) <==> event in w.log.events && event in w.audience && dest in w.audience[event]
    ensures var w := Run(Start(start), steps);
      forall id, other :: Delivers(w.work.q, id, event, dest) && Delivers(w.work.q, other, event, dest) ==> id == other
  {
    StartGood(start);
    RunGood(Start(start), steps);
    var w := Run(Start(start), steps);
    hide Run, Allowed, Logged;
    assert (event, dest) in w.work.q.index <==> event in w.audience && dest in w.audience[event];
    RowsOfIndex(w.work.q, event, dest);
  }

  lemma RowsOfIndex(q: D.Queue, event: string, dest: string)
    requires D.Tidy(q)
    ensures (exists id :: Delivers(q, id, event, dest)) <==> (event, dest) in q.index
    ensures forall id :: Delivers(q, id, event, dest) ==> (event, dest) in q.index && q.index[(event, dest)] == id
  {
    if (event, dest) in q.index {
      assert Delivers(q, q.index[(event, dest)], event, dest);
    }
  }

  /** Who was in the audience: exactly the destinations of the event's application that were enabled
      and took its type at that moment.  Nothing later changes it. */
  lemma AudienceIsFixed(w: World, e: Event, listing: seq<string>, ids: seq<string>, steps: seq<Step>)
    requires Good(w) && Enabled(w, Publish(e, listing, ids, false)) && KeyOf(e) !in w.log.keys
    requires Allowed(Next(w, Publish(e, listing, ids, false)), steps)
    ensures var w' := Run(Next(w, Publish(e, listing, ids, false)), steps);
      e.id in w'.log.events && w'.log.events[e.id] == e
      && e.id in w'.audience && forall id :: id in w'.audience[e.id] <==>
           (id in w.dests && w.dests[id].applicationId == e.applicationId && w.dests[id].enabled
            && (w.dests[id].types == [] || e.eventType in w.dests[id].types))
  {
    assert forall id :: id in Audience(w.dests, e) <==>
      (id in w.dests && w.dests[id].applicationId == e.applicationId && w.dests[id].enabled
       && (w.dests[id].types == [] || e.eventType in w.dests[id].types));
    NextGood(w, Publish(e, listing, ids, false));
    hide D.Tidy, EnqueuedAll, Logged, Reached, Wants, Audience;
    var w1 := Next(w, Publish(e, listing, ids, false));
    RunKeepsAudience(w1, steps, e.id);
  }

  /** The delivery of an event to a destination: to the destination's address of the moment, pending, due at
      once, never tried, with seven attempts. */
  ghost predicate Fresh(d: D.Delivery, id: string, e: Event, dest: string, url: string, now: D.Time) {
    d == D.Delivery(id, e.id, dest, url, D.Pending, 0, 7, now, None, D.NoTrouble, None, None, None)
  }

  ghost predicate Untouched(q: D.Queue, e: Event, listing: seq<string>) {
    (forall dest :: dest in listing ==> (e.id, dest) !in q.index)
    && forall i, j :: 0 <= i < j < |listing| ==> listing[i] != listing[j]
  }

  ghost predicate AllFresh(q: D.Queue, e: Event, dests: map<string, Destination>, listing: seq<string>, ids: seq<string>, now: D.Time) {
    |ids| == |listing| && forall i :: 0 <= i < |listing| ==>
      ids[i] in q.rows && listing[i] in dests && Fresh(q.rows[ids[i]], ids[i], e, listing[i], dests[listing[i]].url, now)
  }

  lemma OrderIsFresh(q: D.Queue, e: Event, dests: map<string, Destination>, dest: string, id: string, now: D.Time)
    requires D.Tidy(q) && dest in dests && id !in q.rows && (e.id, dest) !in q.index
    ensures var q' := D.Enqueued(q, Order(e, dests, dest, id, now)).0;
      && id in q'.rows && Fresh(q'.rows[id], id, e, dest, dests[dest].url, now)
      && forall k :: k in q.rows ==> k in q'.rows && q'.rows[k] == q.rows[k]
  {
    hide D.Tidy;
  }

  lemma {:induction false} OrdersAreFresh(
      q: D.Queue, e: Event, dests: map<string, Destination>, listing: seq<string>, ids: seq<string>, now: D.Time)
    requires D.Tidy(q) && Ready(q, dests, listing, ids) && Untouched(q, e, listing)
    ensures AllFresh(EnqueuedAll(q, e, dests, listing, ids, now), e, dests, listing, ids, now)
  {
    if listing != [] {
      var n := |listing| - 1;
      EnqueuedSplit(q, e, dests, listing, ids, now);
      NotYet(q, e, dests, listing, ids, now);
      assert ids[n] == Order(e, dests, listing[n], ids[n], now).id;
      hide *;
      var q1 := EnqueuedAll(q, e, dests, listing[..n], ids[..n], now);
      OrdersAreFresh(q, e, dests, listing[..n], ids[..n], now);
      OrderIsFresh(q1, e, dests, listing[n], ids[n], now);
      FreshMore(q1, EnqueuedAll(q, e, dests, listing, ids, now), e, dests, listing, ids, now);
    }
  }

  lemma NotYet(q: D.Queue, e: Event, dests: map<string, Destination>, listing: seq<string>, ids: seq<string>, now: D.Time)
    requires D.Tidy(q) && Ready(q, dests, listing, ids) && Untouched(q, e, listing) && listing != []
    ensures var n := |listing| - 1;
      && |ids| == n + 1 && Ready(q, dests, listing[..n], ids[..n]) && Untouched(q, e, listing[..n])
      && (e.id, listing[n]) !in EnqueuedAll(q, e, dests, listing[..n], ids[..n], now).index
  {
    var n := |listing| - 1;
    EnqueuedSplit(q, e, dests, listing, ids, now);
    EnqueuedAllIndex(q, e, dests, listing[..n], ids[..n], now);
    assert listing[n] in listing && listing[n] !in listing[..n];
    hide D.Tidy, EnqueuedAll, Ready;
  }

  lemma FreshMore(q: D.Queue, q': D.Queue, e: Event, dests: map<string, Destination>, listing: seq<string>, ids: seq<string>, now: D.Time)
    requires |ids| == |listing| > 0 && AllFresh(q, e, dests, listing[..|listing| - 1], ids[..|listing| - 1], now)
    requires var n := |listing| - 1;
      ids[n] in q'.rows && listing[n] in dests && Fresh(q'.rows[ids[n]], ids[n], e, listing[n], dests[listing[n]].url, now)
    requires forall k :: k in q.rows ==> k in q'.rows && q'.rows[k] == q.rows[k]
    ensures AllFresh(q', e, dests, listing, ids, now)
  {
    hide Fresh;
    forall i | 0 <= i < |listing|
      ensures ids[i] in q'.rows && listing[i] in dests && Fresh(q'.rows[ids[i]], ids[i], e, listing[i], dests[listing[i]].url, now)
    {
      if i < |listing| - 1 {
        assert ids[..|listing| - 1][i] == ids[i] && listing[..|listing| - 1][i] == listing[i];
      }
    }
  }

  /** Publishing an event that is new stores it, and queues to every destination of the listing a delivery
      that nobody has tried. */
  lemma PublishedIsQueued(w: World, e: Event, listing: seq<string>, ids: seq<string>)
    requires Good(w) && Enabled(w, Publish(e, listing, ids, false)) && KeyOf(e) !in w.log.keys
    ensures var w' := Next(w, Publish(e, listing, ids, false));
      && w'.log == Log(w.log.events[e.id := e], w.log.keys[KeyOf(e) := e.id])
      && AllFresh(w'.work.q, e, w.dests, listing, ids, w.work.now)
  {
    assert Untouched(w.work.q, e, listing);
    hide D.Tidy, EnqueuedAll, Logged, Reached, Wants, AllFresh, Untouched;
    OrdersAreFresh(w.work.q, e, w.dests, listing, ids, w.work.now);
  }

  lemma NextKeepsAudience(w: World, step: Step, id: string)
    requires D.Tidy(w.work.q) && Enabled(w, step) && id in w.log.events && id in w.audience
    ensures var w' := Next(w, step);
      id in w'.log.events && id in w'.audience && w'.log.events[id] == w.log.events[id] && w'.audience[id] == w.audience[id]
  {
    hide D.Tidy, EnqueuedAll, P.Next;
  }

  lemma {:induction false} RunKeepsAudience(w: World, steps: seq<Step>, id: string)
    requires D.Tidy(w.work.q) && Allowed(w, steps) && id in w.log.events && id in w.audience
    ensures var w' := Run(w, steps);
      id in w'.log.events && id in w'.audience && w'.log.events[id] == w.log.events[id] && w'.audience[id] == w.audience[id]
    decreases |steps|
  {
    hide Enabled, Next, D.Tidy;
    if steps != [] {
      NextKeepsAudience(w, steps[0], id);
      RunKeepsAudience(Next(w, steps[0]), steps[1..], id);
    }
  }

  /** Identifiers and type names carry no colon, and only the two refund states of a payment tell
      repeated occurrences apart. */
  predicate Publishable(e: Event) {
    Events.NoColon(e.subject.id) && Events.NoColon(e.eventType)
    && (e.subject.OfPayment? && !CountsRefunds(e.eventType) ==> e.subject.discriminator == "")
  }

  predicate CountsRefunds(t: Events.Type) {
    t == Events.TypeForStatus(PaymentStatuses.Refunded) || t == Events.TypeForStatus(PaymentStatuses.PartiallyRefunded)
  }

  ghost predicate AllPublishable(log: Log) {
    forall id :: id in log.events ==> Publishable(log.events[id])
  }

  predicate SameOccurrence(e: Event, other: Event) {
    e.subject == other.subject && e.eventType == other.eventType
  }

  /** A publish is taken for a repetition exactly when the same occurrence, and not merely one whose
      key looks the same, is stored. */
  lemma DuplicateMeansSameOccurrence(w: World, e: Event)
    requires Good(w) && AllPublishable(w.log) && Publishable(e)
    ensures KeyOf(e) in w.log.keys <==> exists id :: id in w.log.events && SameOccurrence(w.log.events[id], e)
  {
    hide D.Tidy, Reached, Events.DedupeKey, CountsRefunds;
    if KeyOf(e) in w.log.keys {
      var id := w.log.keys[KeyOf(e)];
      var stored := w.log.events[id];
      assert Publishable(stored);
      Events.KeysAreInjective(stored.subject, stored.eventType, e.subject, e.eventType);
      assert SameOccurrence(stored, e);
    }
  }

  ghost predicate PublishesOnly(steps: seq<Step>) {
    forall i :: 0 <= i < |steps| && steps[i].Publish? ==> Publishable(steps[i].e)
  }

  lemma {:induction false} RunPublishable(w: World, steps: seq<Step>)
    requires D.Tidy(w.work.q) && Allowed(w, steps) && AllPublishable(w.log) && PublishesOnly(steps)
    ensures AllPublishable(Run(w, steps).log)
    decreases |steps|
  {
    hide D.Tidy, Publishable, EnqueuedAll, P.Next;
    if steps != [] {
      RunPublishable(Next(w, steps[0]), steps[1..]);
    }
  }

  /** Every run stores at most one event for a payout and type, and for a payment and any type but the
      two that follow its refunds. */
  lemma OneEventPerOccurrence(start: D.Time, steps: seq<Step>, id: string, other: string)
    requires Allowed(Start(start), steps) && PublishesOnly(steps)
    requires var events := Run(Start(start), steps).log.events;
      id in events && other in events
      && events[id].eventType == events[other].eventType && events[id].subject.id == events[other].subject.id
      && ((events[id].subject.OfPayout? && events[other].subject.OfPayout?)
          || (events[id].subject.OfPayment? && events[other].subject.OfPayment? && !CountsRefunds(events[id].eventType)))
    ensures id == other
  {
    StartGood(start);
    RunGood(Start(start), steps);
    RunPublishable(Start(start), steps);
    var log := Run(Start(start), steps).log;
    assert Publishable(log.events[id]) && Publishable(log.events[other]);
    assert log.events[id].subject == log.events[other].subject;
    assert KeyOf(log.events[id]) == KeyOf(log.events[other]);
    hide Run, Allowed, D.Tidy, Reached;
  }
}
