/** Publishing an event: stored once, and queued to every destination that wanted it, or not at all. */
module Publishing {
  import opened Wrappers
  import Events
  import D = Deliveries

  datatype Destination = Destination(applicationId: string, url: string, enabled: bool, types: seq<string>)

  datatype Event = Event(id: string, applicationId: string, eventType: Events.Type, subject: Events.Subject)

  function KeyOf(e: Event): string { Events.DedupeKey(e.subject, e.eventType) }

  predicate Wants(d: Destination, e: Event) {
    d.applicationId == e.applicationId && d.enabled && (d.types == [] || e.eventType in d.types)
  }

  /** The query for eligible destinations: each of them once. */
  ghost predicate IsListing(dests: map<string, Destination>, listing: seq<string>, e: Event) {
    (forall id :: id in listing <==> id in dests && Wants(dests[id], e))
    && forall i, j :: 0 <= i < j < |listing| ==> listing[i] != listing[j]
  }

  predicate NewIds(q: D.Queue, ids: seq<string>) {
    (forall i :: 0 <= i < |ids| ==> ids[i] !in q.rows)
    && forall i, j :: 0 <= i < j < |ids| ==> ids[i] != ids[j]
  }

  predicate Ready(q: D.Queue, dests: map<string, Destination>, listing: seq<string>, ids: seq<string>) {
    |ids| == |listing| && NewIds(q, ids) && forall id :: id in listing ==> id in dests
  }

  /** Events by id, and the unique index over their keys. */
  datatype Log = Log(events: map<string, Event>, keys: map<string, string>)

  function Order(e: Event, dests: map<string, Destination>, dest: string, id: string, now: D.Time): D.Delivery
    requires dest in dests
  {
    D.NewDelivery(id, e.id, dest, dests[dest].url, 0, now)
  }

  function EnqueuedAll(q: D.Queue, e: Event, dests: map<string, Destination>, listing: seq<string>, ids: seq<string>, now: D.Time)
    : (q': D.Queue)
    requires D.Tidy(q) && Ready(q, dests, listing, ids)
    ensures D.Tidy(q') && forall id :: id in q'.rows ==> id in q.rows || id in ids
  {
    if listing == [] then q
    else
      var n := |listing| - 1;
      assert listing[n] in listing;
      var q1 := EnqueuedAll(q, e, dests, listing[..n], ids[..n], now);
      D.Enqueued(q1, Order(e, dests, listing[n], ids[n], now)).0
  }

  datatype Published = Published(log: Log, queue: D.Queue, duplicate: bool)

  function AfterPublish(log: Log, q: D.Queue, dests: map<string, Destination>, e: Event, listing: seq<string>, ids: seq<string>, now: D.Time)
    : (r: Published)
    requires D.Tidy(q) && Ready(q, dests, listing, ids)
    ensures D.Tidy(r.queue)
  {
    if KeyOf(e) in log.keys then Published(log, q, true)
    else Published(Log(log.events[e.id := e], log.keys[KeyOf(e) := e.id]),
                   EnqueuedAll(q, e, dests, listing, ids, now), false)
  }

  datatype PublishError = StatementFailed

  class Publisher {
    const repo: D.Repository
    var events: map<string, Event>
    var keys: map<string, string>

    ghost function State(): Log
      reads this
    {
      Log(events, keys)
    }

    constructor (repo: D.Repository)
      ensures this.repo == repo && State() == Log(map[], map[])
    {
      this.repo := repo;
      events, keys := map[], map[];
    }

    method CreateEvent(e: Event) returns (duplicate: bool)
      modifies this`events, this`keys
      ensures duplicate == (KeyOf(e) in old(keys))
      ensures State() == if duplicate then old(State()) else Log(old(events)[e.id := e], old(keys)[KeyOf(e) := e.id])
      ensures KeyOf(e) in keys && forall key :: key in old(keys) ==> key in keys && keys[key] == old(keys)[key]
    {
      if KeyOf(e) in keys {
        return true;
      }
      events := events[e.id := e];
      keys := keys[KeyOf(e) := e.id];
      return false;
    }

    method EnqueueOne(ghost q: D.Queue, e: Event, dests: map<string, Destination>, listing: seq<string>, ids: seq<string>, now: D.Time, i: nat)
      returns (d: D.Delivery)
      requires D.Tidy(q) && Ready(q, dests, listing, ids) && i < |listing| && Queued(repo.State(), q, e, dests, listing, ids, now, i)
      modifies repo
      ensures Queued(repo.State(), q, e, dests, listing, ids, now, i + 1)
      ensures Kept(old(repo.rows), repo.rows) && Placed(repo.rows, d, e, listing[i])
    {
      EnqueuedMore(q, e, dests, listing, ids, now, i);
      EnqueuedPlaces(repo.State(), Order(e, dests, listing[i], ids[i], now));
      hide D.Tidy, D.Enqueued, EnqueuedAll, Ready, Kept, Placed;
      d := repo.Enqueue(ids[i], e.id, listing[i], dests[listing[i]].url, 0, now);
    }

    /** Queues the event to one destination after the other, up to the first that fails: those before it
        are queued to, and no other. */
    method EnqueueAll(e: Event, dests: map<string, Destination>, listing: seq<string>, ids: seq<string>, failsAt: nat, now: D.Time)
      returns (out: seq<D.Delivery>, ok: bool)
      requires repo.Valid() && Ready(repo.State(), dests, listing, ids)
      modifies repo
      ensures repo.Valid()
      ensures ok <==> failsAt >= |listing|
      ensures |out| == (if ok then |listing| else failsAt)
      ensures |out| <= |listing| == |ids| && Ready(old(repo.State()), dests, listing[..|out|], ids[..|out|])
      ensures repo.State() == EnqueuedAll(old(repo.State()), e, dests, listing[..|out|], ids[..|out|], now)
      ensures AllPlaced(repo.rows, out, e, listing)
    {
      ghost var q := repo.State();
      EnqueuedNone(q, e, dests, listing, ids, now);
      assert AllPlaced(repo.rows, [], e, listing);
      hide D.Tidy, EnqueuedAll, Ready, Queued, Kept, Placed, AllPlaced;
      out := [];
      for i := 0 to |listing|
        invariant |out| == i <= failsAt
        invariant Queued(repo.State(), q, e, dests, listing, ids, now, i)
        invariant AllPlaced(repo.rows, out, e, listing)
      {
        if i == failsAt {
          QueuedAll(repo.State(), q, e, dests, listing, ids, now, i);
          return out, false;
        }
        ghost var rows := repo.rows;
        var d := EnqueueOne(q, e, dests, listing, ids, now, i);
        PlacedMore(rows, repo.rows, out, d, e, listing);
        out := out + [d];
      }
      ok := true;
      QueuedAll(repo.State(), q, e, dests, listing, ids, now, |listing|);
    }

    /** One transaction.  `failsAt` is the first enqueue the database refuses, none if it lies past the
        last; everything the transaction did is then undone. */
    method Publish(e: Event, dests: map<string, Destination>, listing: seq<string>, ids: seq<string>, failsAt: nat, now: D.Time)
      returns (r: Result<seq<D.Delivery>, PublishError>, duplicate: bool)
      requires repo.Valid() && Ready(repo.State(), dests, listing, ids)
      modifies this, repo
      ensures r.Err? <==> KeyOf(e) !in old(keys) && failsAt < |listing|
      ensures r.Err? ==> State() == old(State()) && repo.State() == old(repo.State())
      ensures r.Ok? ==>
        Published(State(), repo.State(), duplicate)
        == AfterPublish(old(State()), old(repo.State()), dests, e, listing, ids, now)
      ensures r.Ok? && !duplicate ==>
        |r.value| == |listing| && AllPlaced(repo.rows, r.value, e, listing)
    {
      hide D.Tidy, D.Enqueued, EnqueuedAll, Ready;
      var savedEvents, savedKeys := events, keys;
      var savedRows, savedAttempts, savedIndex := repo.rows, repo.attempts, repo.index;
      duplicate := CreateEvent(e);
      if duplicate {
        return Ok([]), true;
      }
      var out, ok := EnqueueAll(e, dests, listing, ids, failsAt, now);
      assert listing[..|listing|] == listing && ids[..|ids|] == ids;
      if !ok {
        events, keys := savedEvents, savedKeys;
        repo.rows, repo.attempts, repo.index := savedRows, savedAttempts, savedIndex;
        return Err(StatementFailed), false;
      }
      return Ok(out), false;
    }
  }

  /** The delivery is in the queue, for the event and the destination. */
  ghost predicate Placed(rows: map<string, D.Delivery>, d: D.Delivery, e: Event, dest: string) {
    d.id in rows && rows[d.id] == d && D.Pair(d) == (e.id, dest)
  }

  ghost predicate Kept(rows: map<string, D.Delivery>, rows': map<string, D.Delivery>) {
    forall id :: id in rows ==> id in rows' && rows'[id] == rows[id]
  }

  lemma EnqueuedPlaces(q: D.Queue, d: D.Delivery)
    requires D.Tidy(q) && d.id !in q.rows
    ensures var (q', r) := D.Enqueued(q, d);
      Kept(q.rows, q'.rows) && r.id in q'.rows && q'.rows[r.id] == r && D.Pair(r) == D.Pair(d)
  {
  }

  /** One delivery for each of the first destinations, in their order. */
  ghost predicate AllPlaced(rows: map<string, D.Delivery>, out: seq<D.Delivery>, e: Event, listing: seq<string>) {
    |out| <= |listing| && forall j :: 0 <= j < |out| ==> Placed(rows, out[j], e, listing[j])
  }

  lemma PlacedMore(
      rows: map<string, D.Delivery>, rows': map<string, D.Delivery>, out: seq<D.Delivery>, d: D.Delivery, e: Event, listing: seq<string>)
    requires Kept(rows, rows') && AllPlaced(rows, out, e, listing) && |out| < |listing| && Placed(rows', d, e, listing[|out|])
    ensures AllPlaced(rows', out + [d], e, listing)
  {
  }

  /** The first `i` destinations have been queued to. */
  ghost predicate Queued(queue: D.Queue, q: D.Queue, e: Event, dests: map<string, Destination>, listing: seq<string>, ids: seq<string>, now: D.Time, i: nat) {
    && D.Tidy(q) && i <= |listing| && |ids| == |listing| && Ready(q, dests, listing[..i], ids[..i])
    && queue == EnqueuedAll(q, e, dests, listing[..i], ids[..i], now)
  }

  lemma QueuedAll(queue: D.Queue, q: D.Queue, e: Event, dests: map<string, Destination>, listing: seq<string>, ids: seq<string>, now: D.Time, i: nat)
    requires Queued(queue, q, e, dests, listing, ids, now, i) && D.Tidy(q) && Ready(q, dests, listing, ids)
    ensures D.Tidy(queue) && i <= |listing| == |ids| && Ready(q, dests, listing[..i], ids[..i])
    ensures queue == EnqueuedAll(q, e, dests, listing[..i], ids[..i], now)
  {
    hide D.Tidy, EnqueuedAll;
  }

  lemma EnqueuedNone(q: D.Queue, e: Event, dests: map<string, Destination>, listing: seq<string>, ids: seq<string>, now: D.Time)
    requires D.Tidy(q) && Ready(q, dests, listing, ids)
    ensures Queued(q, q, e, dests, listing, ids, now, 0)
  {
    hide D.Tidy;
  }

  lemma EnqueuedMore(q: D.Queue, e: Event, dests: map<string, Destination>, listing: seq<string>, ids: seq<string>, now: D.Time, i: nat)
    requires D.Tidy(q) && Ready(q, dests, listing, ids) && i < |listing|
    ensures i < |ids| && listing[i] in dests && Ready(q, dests, listing[..i], ids[..i]) && Ready(q, dests, listing[..i + 1], ids[..i + 1])
    ensures ids[i] !in EnqueuedAll(q, e, dests, listing[..i], ids[..i], now).rows
    ensures EnqueuedAll(q, e, dests, listing[..i + 1], ids[..i + 1], now)
      == D.Enqueued(EnqueuedAll(q, e, dests, listing[..i], ids[..i], now), Order(e, dests, listing[i], ids[i], now)).0
  {
    hide D.Tidy, D.Enqueued, Order;
    assert listing[..i + 1][..i] == listing[..i] && ids[..i + 1][..i] == ids[..i] && listing[i] in listing;
  }
}
