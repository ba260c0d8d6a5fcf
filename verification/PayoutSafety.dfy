/** What every step keeps, and at most one transfer per payout. */
module PayoutSafety {
  import opened Wrappers
  import opened PayoutStatuses
  import opened PayoutStore
  import opened PayoutService
  import opened PayoutEffects
  import opened PayoutProtocol
  import Iris

  // ---- the invariant, one payout, task and message at a time ----

  function Path(s: Store, id: string): seq<PayoutStatus>
    requires Tidy(s) && id in s.payouts
  {
    History(s.trail[id])
  }

  ghost predicate PathFits(path: seq<PayoutStatus>, status: PayoutStatus) {
    |path| > 0 && (path[0] == Requested || path[0] == Approved) && IsPath(path) && path[|path| - 1] == status
  }

  ghost predicate RowSafe(p: Payout, id: string, path: seq<PayoutStatus>, now: Time) {
    && p.facts.id == id && p.facts.key == id && |id| <= 100 && p.facts.createdAt <= now
    && PathFits(path, p.status) && Stamped(p) && RowAllowed(p)
    && (p.status == Unresolved ==> p.idempotencyExpiresAt == Expiry(p.facts))
  }

  /** A key on the wire belongs to an approved payout with a usable amount.  While requests arrive in
      time, the gateway's record of it is no older than the first send and it started at most that one
      transfer. */
  ghost predicate KeySafe(f: Facts, path: seq<PayoutStatus>, sent: Option<Time>, record: Option<KeyRecord>, transfers: nat, now: Time, timely: bool) {
    && (sent.Some? ==> f.createdAt <= sent.value <= now && Approved in path && Iris.Sendable(f.currency))
    && (timely ==>
         (record.Some? ==> sent.Some? && sent.value <= record.value.since <= now)
         && transfers == (if record.Some? && record.value.accepted then 1 else 0))
  }

  function Lookup<V>(m: map<string, V>, id: string): Option<V> {
    if id in m then Some(m[id]) else None
  }

  /** A copy agrees with its row on the fixed part and shows a status the row has been in. */
  ghost predicate CopySafe(p: Payout, s: Store)
    requires Tidy(s)
  {
    p.facts.id in s.payouts && p.facts == s.payouts[p.facts.id].facts
    && p.status in History(s.trail[p.facts.id])
    && (p.status == Unresolved ==> p.idempotencyExpiresAt == Expiry(p.facts))
  }

  ghost predicate TaskSafe(t: Task, s: Store)
    requires Tidy(s)
  {
    match t
    case Drafted(_, _, status) => status == Requested || status == Approved
    case Holding(p) => CopySafe(p, s)
    case Calling(p) => CopySafe(p, s) && (p.status == Approved || p.status == Unresolved)
    case Answered(p, outcome) => CopySafe(p, s) && (p.status == Approved || p.status == Unresolved) && Plausible(outcome)
    case Polled(p, outcome) => CopySafe(p, s) && p.status == Submitted && Plausible(outcome)
  }

  ghost predicate MessageSafe(m: Message, s: Store, firstSend: map<string, Time>) {
    m.key in s.payouts && m.key in firstSend
    && (m.Underway? && m.resend ==> m.checkedAt < s.payouts[m.key].facts.createdAt + IDEMPOTENCY_WINDOW)
  }

  /** The events a path announces: the request itself, then every status but Unresolved. */
  function Announced(path: seq<PayoutStatus>): seq<PayoutEvent> {
    if path == [] then [PayoutRequested]
    else Announced(path[..|path| - 1]) + Announcement(path[|path| - 1])
  }

  /** The history opens with the request, each later row honours the rules, and the announced events
      are those of the path. */
  ghost predicate TrailSafe(f: Facts, rows: seq<Transition>, events: seq<PayoutEvent>) {
    && |rows| > 0 && rows[0].from.None?
    && (forall i :: 0 < i < |rows| ==> Honours(rows[i], f))
    && events == Announced(History(rows))
  }

  ghost predicate RowsSafe(s: Store, now: Time)
    requires Tidy(s)
  {
    forall id :: id in s.payouts ==>
      (RowSafe(s.payouts[id], id, Path(s, id), now) && TrailSafe(s.payouts[id].facts, s.trail[id], s.notices[id]))
  }

  ghost predicate KeySafeAt(s: Store, g: Gateway, firstSend: map<string, Time>, now: Time, timely: bool, id: string)
    requires Tidy(s) && id in s.payouts
  {
    KeySafe(s.payouts[id].facts, Path(s, id), Lookup(firstSend, id), Lookup(g.records, id), Transfers(g, id), now, timely)
  }

  ghost predicate KeysSafe(s: Store, g: Gateway, firstSend: map<string, Time>, now: Time, timely: bool)
    requires Tidy(s)
  {
    Known(s, g, firstSend) && forall id :: id in s.payouts ==> KeySafeAt(s, g, firstSend, now, timely, id)
  }

  /** The gateway only ever heard of stored payouts. */
  ghost predicate Known(s: Store, g: Gateway, firstSend: map<string, Time>) {
    firstSend.Keys <= s.payouts.Keys && g.records.Keys <= s.payouts.Keys && g.transfers.Keys <= s.payouts.Keys
  }

  ghost predicate TasksSafe(tasks: map<int, Task>, s: Store)
    requires Tidy(s)
  {
    forall tid :: tid in tasks ==> TaskSafe(tasks[tid], s)
  }

  ghost predicate WireSafe(wire: map<int, Message>, s: Store, firstSend: map<string, Time>) {
    forall tid :: tid in wire ==> MessageSafe(wire[tid], s, firstSend)
  }

  ghost predicate Safe(w: World, timely: bool) {
    && Tidy(w.store) && RowsSafe(w.store, w.now) && KeysSafe(w.store, w.gateway, w.firstSend, w.now, timely)
    && TasksSafe(w.tasks, w.store) && WireSafe(w.wire, w.store, w.firstSend)
  }

  // ---- tables only grow ----

  ghost predicate Grows(s: Store, s': Store)
    requires Tidy(s) && Tidy(s')
  {
    forall id :: id in s.payouts ==>
      (id in s'.payouts && s'.payouts[id].facts == s.payouts[id].facts && KeepsStamps(s.payouts[id], s'.payouts[id])
       && History(s.trail[id]) <= History(s'.trail[id]))
  }

  lemma PrefixHistory(rows: seq<Transition>, rows': seq<Transition>)
    requires rows <= rows'
    ensures History(rows) <= History(rows')
  {
  }

  lemma EffectGrows(s: Store, s': Store, id: string)
    requires Tidy(s) && Effect(s, s', id)
    ensures Grows(s, s')
  {
    forall k | k in s.payouts
      ensures k in s'.payouts && s'.payouts[k].facts == s.payouts[k].facts && KeepsStamps(s.payouts[k], s'.payouts[k])
      ensures History(s.trail[k]) <= History(s'.trail[k])
    {
      EffectKeeps(s, s', id, k);
      PrefixHistory(s.trail[k], s'.trail[k]);
    }
  }

  lemma EffectKeeps(s: Store, s': Store, id: string, k: string)
    requires Tidy(s) && Effect(s, s', id) && k in s.payouts
    ensures k in s'.payouts && s'.payouts[k].facts == s.payouts[k].facts && s.trail[k] <= s'.trail[k]
    ensures KeepsStamps(s.payouts[k], s'.payouts[k])
  {
  }

  lemma InsertedGrows(s: Store, p: Payout)
    requires Tidy(s) && p.facts.id !in s.payouts
    ensures Grows(s, Inserted(s, p).0)
  {
    hide Tidy, Inserted, History, KeepsStamps;
    var s' := Inserted(s, p).0;
    forall id | id in s.payouts
      ensures id in s.trail && id in s'.payouts && id in s'.trail
      ensures s'.payouts[id].facts == s.payouts[id].facts && KeepsStamps(s.payouts[id], s'.payouts[id])
      ensures History(s.trail[id]) <= History(s'.trail[id])
    {
      InsertedKeeps(s, p, id);
    }
  }

  lemma InsertedKeeps(s: Store, p: Payout, id: string)
    requires Tidy(s) && p.facts.id !in s.payouts && id in s.payouts
    ensures var s' := Inserted(s, p).0;
      id in s.trail && id in s'.payouts && id in s'.trail
      && s'.payouts[id].facts == s.payouts[id].facts && KeepsStamps(s.payouts[id], s'.payouts[id])
      && History(s.trail[id]) <= History(s'.trail[id])
  {
    InsertedShape(s, p);
    hide Inserted, History;
  }

  lemma TasksOutlive(tasks: map<int, Task>, s: Store, s': Store)
    requires Tidy(s) && Tidy(s') && Grows(s, s') && TasksSafe(tasks, s)
    ensures TasksSafe(tasks, s')
  {
    forall tid | tid in tasks ensures TaskSafe(tasks[tid], s') {
      TaskOutlives(tasks[tid], s, s');
    }
  }

  lemma TaskOutlives(t: Task, s: Store, s': Store)
    requires Tidy(s) && Tidy(s') && Grows(s, s') && TaskSafe(t, s)
    ensures TaskSafe(t, s')
  {
    if !t.Drafted? {
      CopyOutlives(t.p, s, s');
    }
  }

  lemma CopyOutlives(p: Payout, s: Store, s': Store)
    requires Tidy(s) && Tidy(s') && Grows(s, s') && CopySafe(p, s)
    ensures CopySafe(p, s')
  {
    var path, path' := History(s.trail[p.facts.id]), History(s'.trail[p.facts.id]);
    var i :| 0 <= i < |path| && path[i] == p.status;
    assert path'[i] == path[i];
  }

  lemma WireOutlives(wire: map<int, Message>, s: Store, s': Store, firstSend: map<string, Time>)
    requires Tidy(s) && Tidy(s') && Grows(s, s') && WireSafe(wire, s, firstSend)
    ensures WireSafe(wire, s', firstSend)
  {
  }

  // ---- steps that change the tables ----

  lemma HistoryExtends(rows: seq<Transition>, rows': seq<Transition>)
    requires |rows'| == |rows| + 1 && rows'[..|rows|] == rows
    ensures History(rows') == History(rows) + [rows'[|rows|].to]
  {
    assert forall i :: 0 <= i < |rows| ==> rows'[i] == rows'[..|rows|][i];
  }

  lemma PathExtends(path: seq<PayoutStatus>, status: PayoutStatus, next: PayoutStatus)
    requires PathFits(path, status) && CanTransitionTo(status, next)
    ensures PathFits(path + [next], next)
  {
    hide CanTransitionTo;
    var longer := path + [next];
    assert longer[|longer| - 1] == next;
    forall i | 0 < i < |longer| ensures CanTransitionTo(longer[i - 1], longer[i]) {
      if i < |path| {
        assert CanTransitionTo(path[i - 1], path[i]);
      }
    }
  }

  lemma RowUnderEffect(s: Store, s': Store, id: string, now: Time)
    requires Tidy(s) && Effect(s, s', id) && id in s.payouts
    requires RowSafe(s.payouts[id], id, History(s.trail[id]), now)
    ensures RowSafe(s'.payouts[id], id, History(s'.trail[id]), now)
  {
    if Moves(s.payouts[id], s'.payouts[id]) && AppendsMove(s, s', id) {
      HistoryExtends(s.trail[id], s'.trail[id]);
      PathExtends(History(s.trail[id]), s.payouts[id].status, s'.payouts[id].status);
      hide PathFits, History, Tidy;
    }
  }

  lemma TrailUnderEffect(s: Store, s': Store, id: string)
    requires Tidy(s) && Effect(s, s', id) && id in s.payouts
    requires TrailSafe(s.payouts[id].facts, s.trail[id], s.notices[id])
    ensures TrailSafe(s'.payouts[id].facts, s'.trail[id], s'.notices[id])
  {
    hide History, Honours, Announced, RowAllowed, CanTransitionTo, TrailSafe;
    if Moves(s.payouts[id], s'.payouts[id]) && AppendsMove(s, s', id) {
      TrailExtends(s.payouts[id].facts, s.trail[id], s'.trail[id], s.notices[id]);
    }
  }

  lemma TrailExtends(f: Facts, rows: seq<Transition>, rows': seq<Transition>, events: seq<PayoutEvent>)
    requires TrailSafe(f, rows, events)
    requires |rows'| == |rows| + 1 && rows'[..|rows|] == rows && Honours(rows'[|rows|], f)
    ensures TrailSafe(f, rows', events + Announcement(rows'[|rows|].to))
  {
    HistoryExtends(rows, rows');
    AnnouncedExtends(History(rows), rows'[|rows|].to);
    hide History, Honours, Announced, Announcement;
    forall i | 0 < i < |rows'| ensures Honours(rows'[i], f) {
      if i < |rows| {
        assert rows'[i] == rows'[..|rows|][i];
      }
    }
    assert rows'[0] == rows'[..|rows|][0];
  }

  lemma EffectLeaves(s: Store, s': Store, id: string, k: string)
    requires Tidy(s) && Effect(s, s', id) && k in s.payouts && k != id
    ensures s'.payouts[k] == s.payouts[k] && s'.trail[k] == s.trail[k] && s'.notices[k] == s.notices[k]
  {
    hide Tidy;
  }

  lemma AnnouncedExtends(path: seq<PayoutStatus>, next: PayoutStatus)
    ensures Announced(path + [next]) == Announced(path) + Announcement(next)
  {
    assert (path + [next])[..|path|] == path;
  }

  lemma RowUnderEffectAt(s: Store, s': Store, id: string, now: Time, k: string)
    requires Tidy(s) && RowsSafe(s, now) && Effect(s, s', id) && k in s'.payouts
    ensures RowSafe(s'.payouts[k], k, Path(s', k), now) && TrailSafe(s'.payouts[k].facts, s'.trail[k], s'.notices[k])
  {
    EffectDomain(s, s', id);
    assert RowSafe(s.payouts[k], k, Path(s, k), now) && TrailSafe(s.payouts[k].facts, s.trail[k], s.notices[k]);
    hide RowSafe, TrailSafe, Effect, Tidy, History, RowsSafe;
    if k == id {
      RowUnderEffect(s, s', id, now);
      TrailUnderEffect(s, s', id);
    } else {
      EffectLeaves(s, s', id, k);
    }
  }

  lemma RowsUnderEffect(s: Store, s': Store, id: string, now: Time)
    requires Tidy(s) && RowsSafe(s, now) && Effect(s, s', id)
    ensures RowsSafe(s', now)
  {
    EffectDomain(s, s', id);
    hide RowSafe, TrailSafe, Effect, Tidy, Path;
    forall k | k in s'.payouts
      ensures RowSafe(s'.payouts[k], k, Path(s', k), now) && TrailSafe(s'.payouts[k].facts, s'.trail[k], s'.notices[k])
    {
      RowUnderEffectAt(s, s', id, now, k);
    }
  }

  lemma KeysUnderGrowth(s: Store, s': Store, g: Gateway, firstSend: map<string, Time>, now: Time, timely: bool)
    requires Tidy(s) && Tidy(s') && Grows(s, s') && s'.payouts.Keys == s.payouts.Keys
    requires KeysSafe(s, g, firstSend, now, timely)
    ensures KeysSafe(s', g, firstSend, now, timely)
  {
    hide Tidy, Iris.Sendable, Transfers, Lookup;
    forall id | id in s'.payouts ensures KeySafeAt(s', g, firstSend, now, timely, id) {
      assert KeySafeAt(s, g, firstSend, now, timely, id);
      StillIn(Path(s, id), Path(s', id), Approved);
    }
  }

  lemma StillIn(path: seq<PayoutStatus>, path': seq<PayoutStatus>, status: PayoutStatus)
    requires path <= path'
    ensures status in path ==> status in path'
  {
    if status in path {
      var i :| 0 <= i < |path| && path[i] == status;
      assert path'[i] == status;
    }
  }

  lemma StoreStep(w: World, tid: int, s': Store, id: string, timely: bool)
    requires Safe(w, timely) && Effect(w.store, s', id)
    ensures Safe(Done(w, tid, s'), timely)
  {
    RowsUnderEffect(w.store, s', id, w.now);
    EffectGrows(w.store, s', id);
    EffectDomain(w.store, s', id);
    KeysUnderGrowth(w.store, s', w.gateway, w.firstSend, w.now, timely);
    TasksOutlive(w.tasks, w.store, s');
    WireOutlives(w.wire, w.store, s', w.firstSend);
    hide Effect, Grows, Tidy, RowsSafe, KeysSafe, TaskSafe, WireSafe;
  }

  lemma EffectDomain(s: Store, s': Store, id: string)
    requires Tidy(s) && Effect(s, s', id)
    ensures Tidy(s') && s'.payouts.Keys == s.payouts.Keys
  {
  }

  lemma NewRowSafe(id: string, input: RequestInput, destination: Destination, status: PayoutStatus, now: Time)
    requires (status == Requested || status == Approved) && |id| <= 100
    ensures var p := NewPayout(id, input, destination, status, now);
      RowSafe(p, id, History([FirstRow(p)]), now) && TrailSafe(p.facts, [FirstRow(p)], FirstNotices(p.status))
  {
    var p := NewPayout(id, input, destination, status, now);
    assert History([FirstRow(p)]) == [status];
    assert Announced([status]) == Announced([]) + Announcement(status);
  }

  lemma InsertStep(w: World, p: Payout, timely: bool)
    requires Safe(w, timely) && p.facts.id !in w.store.payouts
    requires RowSafe(p, p.facts.id, History([FirstRow(p)]), w.now) && TrailSafe(p.facts, [FirstRow(p)], FirstNotices(p.status))
    ensures Safe(w.(store := Inserted(w.store, p).0), timely)
  {
    var s' := Inserted(w.store, p).0;
    InsertedGrows(w.store, p);
    TasksOutlive(w.tasks, w.store, s');
    WireOutlives(w.wire, w.store, s', w.firstSend);
    InsertKeepsRows(w.store, p, w.now);
    InsertKeepsKeys(w.store, p, w.gateway, w.firstSend, w.now, timely);
    hide Grows, Tidy, RowsSafe, KeysSafe, TasksSafe, WireSafe, Inserted;
  }

  lemma InsertedShape(s: Store, p: Payout)
    requires Tidy(s) && p.facts.id !in s.payouts
    ensures var s' := Inserted(s, p).0; var id := p.facts.id;
      s' == s
      || (s'.payouts.Keys == s.payouts.Keys + {id}
          && s'.payouts[id] == p && s'.trail[id] == [FirstRow(p)] && s'.notices[id] == FirstNotices(p.status)
          && forall k :: k in s.payouts ==>
               s'.payouts[k] == s.payouts[k] && s'.trail[k] == s.trail[k] && s'.notices[k] == s.notices[k])
  {
  }

  lemma InsertKeepsRows(s: Store, p: Payout, now: Time)
    requires Tidy(s) && RowsSafe(s, now) && p.facts.id !in s.payouts
    requires RowSafe(p, p.facts.id, History([FirstRow(p)]), now) && TrailSafe(p.facts, [FirstRow(p)], FirstNotices(p.status))
    ensures RowsSafe(Inserted(s, p).0, now)
  {
    InsertedShape(s, p);
    hide RowSafe, Inserted, History, TrailSafe, FirstRow, FirstNotices;
    var s' := Inserted(s, p).0;
    forall k | k in s'.payouts
      ensures RowSafe(s'.payouts[k], k, Path(s', k), now) && TrailSafe(s'.payouts[k].facts, s'.trail[k], s'.notices[k])
    {
      if k in s.payouts {
        assert RowSafe(s.payouts[k], k, Path(s, k), now) && TrailSafe(s.payouts[k].facts, s.trail[k], s.notices[k]);
      }
    }
  }

  lemma UnusedKeySafe(f: Facts, path: seq<PayoutStatus>, g: Gateway, firstSend: map<string, Time>, k: string, now: Time, timely: bool)
    requires k !in firstSend && k !in g.records && k !in g.transfers
    ensures KeySafe(f, path, Lookup(firstSend, k), Lookup(g.records, k), Transfers(g, k), now, timely)
  {
  }

  lemma InsertKeepsKeys(s: Store, p: Payout, g: Gateway, firstSend: map<string, Time>, now: Time, timely: bool)
    requires Tidy(s) && KeysSafe(s, g, firstSend, now, timely) && p.facts.id !in s.payouts
    ensures KeysSafe(Inserted(s, p).0, g, firstSend, now, timely)
  {
    InsertKeepsKnown(s, p, g, firstSend);
    hide Inserted, Tidy, KeySafeAt, Known;
    forall k | k in Inserted(s, p).0.payouts ensures KeySafeAt(Inserted(s, p).0, g, firstSend, now, timely, k) {
      InsertKeepsKey(s, p, g, firstSend, now, k, timely);
    }
  }

  lemma InsertKeepsKnown(s: Store, p: Payout, g: Gateway, firstSend: map<string, Time>)
    requires Tidy(s) && Known(s, g, firstSend) && p.facts.id !in s.payouts
    ensures Known(Inserted(s, p).0, g, firstSend)
  {
    InsertedShape(s, p);
    hide Inserted, Tidy;
  }

  lemma InsertKeepsKey(s: Store, p: Payout, g: Gateway, firstSend: map<string, Time>, now: Time, k: string, timely: bool)
    requires Tidy(s) && KeysSafe(s, g, firstSend, now, timely) && p.facts.id !in s.payouts
    requires k in Inserted(s, p).0.payouts
    ensures KeySafeAt(Inserted(s, p).0, g, firstSend, now, timely, k)
  {
    InsertedShape(s, p);
    hide Inserted, Tidy, KeySafe, History;
    var s' := Inserted(s, p).0;
    if k in s.payouts {
      assert KeySafeAt(s, g, firstSend, now, timely, k);
    } else {
      UnusedKeySafe(s'.payouts[k].facts, Path(s', k), g, firstSend, k, now, timely);
    }
  }

  // ---- steps that change only what a worker holds ----

  lemma TaskStep(w: World, tid: int, t: Task, timely: bool)
    requires Safe(w, timely) && TaskSafe(t, w.store)
    ensures Safe(w.(tasks := w.tasks[tid := t]), timely)
  {
    hide RowsSafe, KeysSafe, TaskSafe, WireSafe, Tidy;
  }

  lemma ReadStep(w: World, tid: int, id: string, timely: bool)
    requires Safe(w, timely) && id in w.store.payouts
    ensures Safe(w.(tasks := w.tasks[tid := Holding(w.store.payouts[id])]), timely)
  {
    SafeIsTidy(w, timely);
    RowFacts(w, id, timely);
    hide *;
    CurrentCopySafe(w.store, id, w.now);
    HoldingSafe(w.store.payouts[id], w.store);
    TaskStep(w, tid, Holding(w.store.payouts[id]), timely);
  }

  lemma HoldingSafe(p: Payout, s: Store)
    requires Tidy(s) && CopySafe(p, s)
    ensures TaskSafe(Holding(p), s)
  {
    hide CopySafe;
  }

  lemma CurrentCopySafe(s: Store, id: string, now: Time)
    requires Tidy(s) && id in s.payouts && RowSafe(s.payouts[id], id, Path(s, id), now)
    ensures CopySafe(s.payouts[id], s)
  {
    var path := History(s.trail[id]);
    assert path[|path| - 1] == s.payouts[id].status;
  }

  // ---- sending ----

  lemma SendStep(w: World, tid: int, p: Payout, timely: bool)
    requires Safe(w, timely) && CopySafe(p, w.store)
    requires p.status == Approved || (p.status == Unresolved && Recoverable(p, w.now))
    ensures Safe(Send(w, tid, p), timely)
  {
    hide Safe, CopySafe, Iris.Sendable, Tidy, Iris.HeaderKey;
    if !Iris.Sendable(p.facts.currency) {
      TaskStep(w, tid, Answered(p, Err(Iris.UnusableAmount)), timely);
    } else {
      RealSendStep(w, tid, p, timely);
    }
  }

  lemma HeaderKeyIsWhole(key: string)
    requires |key| <= 100
    ensures Iris.HeaderKey(key) == key
  {
  }

  lemma RowFacts(w: World, id: string, timely: bool)
    requires Safe(w, timely) && id in w.store.payouts
    ensures RowSafe(w.store.payouts[id], id, Path(w.store, id), w.now)
    ensures TrailSafe(w.store.payouts[id].facts, w.store.trail[id], w.store.notices[id])
    ensures w.store.payouts[id].facts.createdAt <= w.now
  {
  }

  lemma RealSendStep(w: World, tid: int, p: Payout, timely: bool)
    requires Safe(w, timely) && CopySafe(p, w.store) && Iris.Sendable(p.facts.currency)
    requires p.status == Approved || (p.status == Unresolved && Recoverable(p, w.now))
    ensures Safe(Send(w, tid, p), timely)
  {
    RowFacts(w, p.facts.id, timely);
    hide RowsSafe, KeysSafe, TasksSafe, WireSafe, Tidy, Iris.Sendable, Iris.HeaderKey, RowSafe, Path;
    SentByApproved(w, p);
    SendKeepsKeys(w, p, timely);
    SendKeepsWire(w, tid, p);
    SendKeepsTasks(w, tid, p);
    HeaderKeyIsWhole(p.facts.key);
  }

  function WithFirstSend(w: World, key: string): map<string, Time> {
    if key in w.firstSend then w.firstSend else w.firstSend[key := w.now]
  }

  lemma SentByApproved(w: World, p: Payout)
    requires Tidy(w.store) && CopySafe(p, w.store) && (p.status == Approved || p.status == Unresolved)
    requires RowSafe(w.store.payouts[p.facts.id], p.facts.id, Path(w.store, p.facts.id), w.now)
    ensures Approved in Path(w.store, p.facts.id)
    ensures p.facts.key == p.facts.id && |p.facts.id| <= 100
  {
    ApprovedIsBehind(Path(w.store, p.facts.id));
  }

  lemma SendKeepsKeys(w: World, p: Payout, timely: bool)
    requires Tidy(w.store) && KeysSafe(w.store, w.gateway, w.firstSend, w.now, timely)
    requires CopySafe(p, w.store) && Iris.Sendable(p.facts.currency)
    requires Approved in Path(w.store, p.facts.id) && p.facts.createdAt <= w.now
    ensures KeysSafe(w.store, w.gateway, WithFirstSend(w, p.facts.id), w.now, timely)
  {
    hide Tidy, Iris.Sendable, Path, Transfers;
    forall k | k in w.store.payouts ensures KeySafeAt(w.store, w.gateway, WithFirstSend(w, p.facts.id), w.now, timely, k) {
      assert KeySafeAt(w.store, w.gateway, w.firstSend, w.now, timely, k);
    }
  }

  lemma SendKeepsWire(w: World, tid: int, p: Payout)
    requires Tidy(w.store) && WireSafe(w.wire, w.store, w.firstSend) && CopySafe(p, w.store)
    requires p.status == Approved || (p.status == Unresolved && Recoverable(p, w.now))
    ensures var m := Underway(p.facts.id, p.status == Unresolved, w.now);
      WireSafe(w.wire[tid := m], w.store, WithFirstSend(w, p.facts.id))
  {
    hide Tidy;
    var firstSend := WithFirstSend(w, p.facts.id);
    forall k | k in w.wire ensures MessageSafe(w.wire[k], w.store, firstSend) {
      assert MessageSafe(w.wire[k], w.store, w.firstSend);
    }
  }

  lemma SendKeepsTasks(w: World, tid: int, p: Payout)
    requires Tidy(w.store) && TasksSafe(w.tasks, w.store) && CopySafe(p, w.store)
    requires p.status == Approved || p.status == Unresolved
    ensures TasksSafe(w.tasks[tid := Calling(p)], w.store)
  {
    hide Tidy, CopySafe;
  }

  // ---- the gateway ----

  /** The point of the two time limits: every request that arrives in time finds the gateway still
      remembering the key, if it ever saw it. */
  lemma ArrivesWhileRemembered(f: Facts, path: seq<PayoutStatus>, sent: Time, record: KeyRecord, transfers: nat, m: Message, now: Time)
    requires KeySafe(f, path, Some(sent), Some(record), transfers, now, true)
    requires m.Underway? && (m.resend ==> m.checkedAt < f.createdAt + IDEMPOTENCY_WINDOW)
    requires now < if m.resend then m.checkedAt + FLIGHT_LIMIT else sent + RETENTION
    ensures now < record.since + RETENTION
  {
  }

  lemma ReceiveKeepsKeys(w: World, tid: int, accept: bool, reference: string, timely: bool)
    requires Safe(w, timely) && tid in w.wire && w.wire[tid].Underway?
    requires timely ==> w.wire[tid].key in w.firstSend && w.now < Deadline(w, w.wire[tid])
    ensures KeysSafe(w.store, Arrive(w.gateway, w.wire[tid].key, w.now, accept, reference), w.firstSend, w.now, timely)
    ensures timely && w.wire[tid].key in w.gateway.records ==> Remembers(w.gateway, w.wire[tid].key, w.now)
  {
    var m := w.wire[tid];
    assert MessageSafe(m, w.store, w.firstSend);
    hide RowsSafe, TasksSafe, WireSafe, Tidy, Path;
    if timely && m.key in w.gateway.records {
      TimelyIsRemembered(w, m);
    } else {
      hide KeysSafe, MessageSafe, Arrive;
      NewRecordKeepsKeys(w, m.key, accept, reference, timely);
    }
  }

  lemma TimelyIsRemembered(w: World, m: Message)
    requires Tidy(w.store) && KeysSafe(w.store, w.gateway, w.firstSend, w.now, true)
    requires MessageSafe(m, w.store, w.firstSend) && m.Underway? && w.now < Deadline(w, m)
    requires m.key in w.gateway.records
    ensures Remembers(w.gateway, m.key, w.now)
  {
    var g := w.gateway;
    assert KeySafeAt(w.store, g, w.firstSend, w.now, true, m.key);
    hide Tidy, Path;
    ArrivesWhileRemembered(w.store.payouts[m.key].facts, Path(w.store, m.key), w.firstSend[m.key], g.records[m.key],
                           Transfers(g, m.key), m, w.now);
  }

  lemma NewRecordKeepsKeys(w: World, key: string, accept: bool, reference: string, timely: bool)
    requires Tidy(w.store) && KeysSafe(w.store, w.gateway, w.firstSend, w.now, timely)
    requires key in w.store.payouts && key in w.firstSend && (timely ==> key !in w.gateway.records)
    ensures KeysSafe(w.store, Arrive(w.gateway, key, w.now, accept, reference), w.firstSend, w.now, timely)
  {
    hide Tidy, Iris.Sendable, Path;
    var g' := Arrive(w.gateway, key, w.now, accept, reference);
    forall k | k in w.store.payouts ensures KeySafeAt(w.store, g', w.firstSend, w.now, timely, k) {
      assert KeySafeAt(w.store, w.gateway, w.firstSend, w.now, timely, k);
    }
  }

  lemma ReceiveStep(w: World, tid: int, accept: bool, reference: string, x: Iris.Exchange, timely: bool)
    requires Safe(w, timely) && tid in w.wire && w.wire[tid].Underway?
    requires timely ==> w.wire[tid].key in w.firstSend && w.now < Deadline(w, w.wire[tid])
    ensures var key := w.wire[tid].key;
      Safe(w.(gateway := Arrive(w.gateway, key, w.now, accept, reference), wire := w.wire[tid := Landed(key, x)]), timely)
  {
    var m := w.wire[tid];
    ReceiveKeepsKeys(w, tid, accept, reference, timely);
    LandingKeepsWire(w.wire, tid, x, w.store, w.firstSend);
    hide RowsSafe, KeysSafe, TasksSafe, WireSafe, Tidy, Arrive;
  }

  lemma LandingKeepsWire(wire: map<int, Message>, tid: int, x: Iris.Exchange, s: Store, firstSend: map<string, Time>)
    requires WireSafe(wire, s, firstSend) && tid in wire
    ensures WireSafe(wire[tid := Landed(wire[tid].key, x)], s, firstSend)
  {
    assert MessageSafe(wire[tid], s, firstSend);
  }

  function WithFate(g: Gateway, key: string, fate: Fate): Gateway
    requires key in g.records
  {
    g.(records := g.records[key := g.records[key].(fate := fate)])
  }

  lemma WithFateKeeps(f: Facts, path: seq<PayoutStatus>, sent: Option<Time>, g: Gateway, key: string, fate: Fate, k: string, now: Time, timely: bool)
    requires key in g.records && KeySafe(f, path, sent, Lookup(g.records, k), Transfers(g, k), now, timely)
    ensures KeySafe(f, path, sent, Lookup(WithFate(g, key, fate).records, k), Transfers(WithFate(g, key, fate), k), now, timely)
  {
    hide Iris.Sendable;
  }

  lemma ProgressStep(w: World, key: string, fate: Fate, timely: bool)
    requires Safe(w, timely) && key in w.gateway.records
    ensures Safe(w.(gateway := WithFate(w.gateway, key, fate)), timely)
  {
    ProgressKeepsKeys(w.store, w.gateway, key, fate, w.firstSend, w.now, timely);
    hide RowsSafe, KeysSafe, TasksSafe, WireSafe, Tidy, WithFate;
  }

  lemma ProgressKeepsKeys(s: Store, g: Gateway, key: string, fate: Fate, firstSend: map<string, Time>, now: Time, timely: bool)
    requires Tidy(s) && KeysSafe(s, g, firstSend, now, timely) && key in g.records
    ensures KeysSafe(s, WithFate(g, key, fate), firstSend, now, timely)
  {
    var g' := WithFate(g, key, fate);
    assert Known(s, g', firstSend) by { hide Tidy, KeySafeAt; }
    forall k | k in s.payouts ensures KeySafeAt(s, g', firstSend, now, timely, k) {
      hide KeySafe, Path, Tidy, WithFate, Transfers, Known;
      assert KeySafeAt(s, g, firstSend, now, timely, k);
      WithFateKeeps(s.payouts[k].facts, Path(s, k), Lookup(firstSend, k), g, key, fate, k, now, timely);
    }
  }

  lemma TickKeepsRows(s: Store, now: Time, later: Time)
    requires Tidy(s) && RowsSafe(s, now) && now <= later
    ensures RowsSafe(s, later)
  {
    hide Path, PathFits, Tidy, TrailSafe;
    forall k | k in s.payouts ensures RowSafe(s.payouts[k], k, Path(s, k), later) {
      assert RowSafe(s.payouts[k], k, Path(s, k), now);
    }
  }

  lemma TickKeepsKeys(s: Store, g: Gateway, firstSend: map<string, Time>, now: Time, later: Time, timely: bool)
    requires Tidy(s) && KeysSafe(s, g, firstSend, now, timely) && now <= later
    ensures KeysSafe(s, g, firstSend, later, timely)
  {
    hide Path, Iris.Sendable, Transfers, Lookup, Tidy, Known;
    forall k | k in s.payouts ensures KeySafeAt(s, g, firstSend, later, timely, k) {
      assert KeySafeAt(s, g, firstSend, now, timely, k);
    }
  }

  lemma TickStep(w: World, elapsed: nat, timely: bool)
    requires Safe(w, timely)
    ensures Safe(w.(now := w.now + elapsed), timely)
  {
    hide RowsSafe, KeysSafe, TasksSafe, WireSafe, Tidy;
    TickKeepsRows(w.store, w.now, w.now + elapsed);
    TickKeepsKeys(w.store, w.gateway, w.firstSend, w.now, w.now + elapsed, timely);
  }

  // ---- all steps together ----

  lemma StartSafe(now: Time, timely: bool)
    ensures Safe(Start(now), timely)
  {
  }

  lemma SafeIsTidy(w: World, timely: bool)
    requires Safe(w, timely)
    ensures Tidy(w.store)
  {
  }

  lemma CopyOf(w: World, tid: int, timely: bool)
    requires Safe(w, timely) && tid in w.tasks && !w.tasks[tid].Drafted?
    ensures TaskSafe(w.tasks[tid], w.store) && CopySafe(w.tasks[tid].p, w.store)
  {
  }

  lemma CallStep(w: World, tid: int, timely: bool)
    requires Safe(w, timely) && Enabled(w, Call(tid))
    ensures Safe(AfterCall(w, tid), timely)
  {
    CopyOf(w, tid, timely);
    var p := w.tasks[tid].p;
    var id := p.facts.id;
    if p.status == Approved {
      RowFacts(w, id, timely);
      hide Safe, CopySafe, RowSafe, Send, Effect, TrailSafe;
      CurrentCopySafe(w.store, id, w.now);
      if Submittable(w.store.payouts[id]) {
        SendStep(w, tid, w.store.payouts[id], timely);
      } else {
        StaysPut(w.store, id);
        StoreStep(w, tid, w.store, id, timely);
      }
    } else {
      hide Safe, CopySafe, Send, Touched, Effect;
      if Recoverable(p, w.now) {
        SendStep(w, tid, p, timely);
      } else {
        TouchStep(w, tid, id, timely);
      }
    }
  }

  lemma RequestStep(w: World, limits: Option<Limits>, input: RequestInput, beneficiary: Option<Beneficiary>, id: string, timely: bool)
    requires Safe(w, timely) && NewId(w, id)
    ensures Safe(w.(store := Requesting(w.store, limits, input, beneficiary, id, w.now).0), timely)
  {
    SafeIsTidy(w, timely);
    var v := Judge(w.store, limits, input, beneficiary, w.now);
    if v.Admit? {
      JudgedStatus(w.store, limits, input, beneficiary, w.now);
      NewRowSafe(id, input, v.destination, v.status, w.now);
      hide Safe, Judge, RowSafe, Inserted, NewPayout, Tidy, FirstRow, History, TrailSafe, FirstNotices;
      InsertStep(w, NewPayout(id, input, v.destination, v.status, w.now), timely);
    }
  }

  lemma InsertTaskStep(w: World, tid: int, id: string, timely: bool)
    requires Safe(w, timely) && tid in w.tasks && w.tasks[tid].Drafted? && NewId(w, id)
    ensures var t := w.tasks[tid];
      Safe(Done(w, tid, Inserted(w.store, NewPayout(id, t.input, t.destination, t.status, w.now)).0), timely)
  {
    var t := w.tasks[tid];
    assert TaskSafe(t, w.store);
    NewRowSafe(id, t.input, t.destination, t.status, w.now);
    var p := NewPayout(id, t.input, t.destination, t.status, w.now);
    hide Safe, RowSafe, Inserted, NewPayout, Tidy, TrailSafe, FirstRow, FirstNotices;
    InsertStep(w, p, timely);
    DropStep(w.(store := Inserted(w.store, p).0), tid, timely);
  }

  lemma DecisionStep(w: World, tid: int, p: Payout, admin: string, reason: string, timely: bool)
    requires Safe(w, timely) && CopySafe(p, w.store)
    ensures Safe(Done(w, tid, Approving(w.store, p, admin, w.now).0), timely)
    ensures Safe(Done(w, tid, Rejecting(w.store, p, admin, reason, w.now).0), timely)
  {
    SafeIsTidy(w, timely);
    assert Copies(w.store, p);
    hide Safe, Approving, Rejecting, Effect, Tidy, CopySafe;
    ApprovingHasEffect(w.store, p, admin, w.now);
    StoreStep(w, tid, Approving(w.store, p, admin, w.now).0, p.facts.id, timely);
    RejectingHasEffect(w.store, p, admin, reason, w.now);
    StoreStep(w, tid, Rejecting(w.store, p, admin, reason, w.now).0, p.facts.id, timely);
  }

  lemma RecordStep(w: World, tid: int, p: Payout, outcome: Outcome, timely: bool)
    requires Safe(w, timely) && CopySafe(p, w.store) && Plausible(outcome)
    ensures p.status == Approved || p.status == Unresolved ==>
      Safe(Done(w, tid, CreateRecorded(w.store, p, outcome, w.now).0), timely)
    ensures Safe(Done(w, tid, PollRecorded(w.store, p, outcome, w.now).0), timely)
  {
    SafeIsTidy(w, timely);
    assert Copies(w.store, p);
    hide Safe, CreateRecorded, PollRecorded, Effect, Tidy, CopySafe;
    if p.status == Approved || p.status == Unresolved {
      CreateRecordedHasEffect(w.store, p, outcome, w.now);
      StoreStep(w, tid, CreateRecorded(w.store, p, outcome, w.now).0, p.facts.id, timely);
    }
    PollRecordedHasEffect(w.store, p, outcome, w.now);
    StoreStep(w, tid, PollRecorded(w.store, p, outcome, w.now).0, p.facts.id, timely);
  }

  lemma AnswerStep(w: World, tid: int, outcome: Outcome, timely: bool)
    requires Safe(w, timely) && tid in w.tasks && w.tasks[tid].Calling? && Plausible(outcome)
    ensures Safe(w.(tasks := w.tasks[tid := Answered(w.tasks[tid].p, outcome)]), timely)
  {
    hide Safe, CopySafe, Tidy;
    CopyOf(w, tid, timely);
    TaskStep(w, tid, Answered(w.tasks[tid].p, outcome), timely);
  }

  lemma TouchStep(w: World, tid: int, id: string, timely: bool)
    requires Safe(w, timely)
    ensures Tidy(w.store) && Safe(Done(w, tid, Touched(w.store, id, w.now)), timely)
  {
    SafeIsTidy(w, timely);
    hide Safe, Effect, Touched, Tidy;
    TouchedHasEffect(w.store, id, w.now);
    StoreStep(w, tid, Touched(w.store, id, w.now), id, timely);
  }

  lemma PollStep(w: World, tid: int, outcome: Outcome, timely: bool)
    requires Safe(w, timely) && HoldingOne(w, tid) && w.tasks[tid].p.status == Submitted && Plausible(outcome)
    ensures Safe(w.(tasks := w.tasks[tid := Polled(w.tasks[tid].p, outcome)]), timely)
  {
    hide Safe, CopySafe, Tidy;
    CopyOf(w, tid, timely);
    TaskStep(w, tid, Polled(w.tasks[tid].p, outcome), timely);
  }

  lemma DraftStep(w: World, tid: int, input: RequestInput, destination: Destination, status: PayoutStatus, timely: bool)
    requires Safe(w, timely) && (status == Requested || status == Approved)
    ensures Safe(w.(tasks := w.tasks[tid := Drafted(input, destination, status)]), timely)
  {
    hide Safe;
    TaskStep(w, tid, Drafted(input, destination, status), timely);
  }

  lemma DropStep(w: World, tid: int, timely: bool)
    requires Safe(w, timely)
    ensures Safe(Done(w, tid, w.store), timely)
  {
    SafeIsTidy(w, timely);
    hide Effect, Safe;
    StaysPut(w.store, "");
    StoreStep(w, tid, w.store, "", timely);
  }

  lemma TickNext(w: World, elapsed: nat, timely: bool)
    requires Safe(w, timely) && Enabled(w, Tick(elapsed))
    ensures Safe(Next(w, Tick(elapsed)), timely)
  {
    hide Safe, Tidy;
    TickStep(w, elapsed, timely);
  }

  lemma RequestNext(w: World, limits: Option<Limits>, input: RequestInput, beneficiary: Option<Beneficiary>, id: string, timely: bool)
    requires Safe(w, timely) && Enabled(w, Request(limits, input, beneficiary, id))
    ensures Safe(Next(w, Request(limits, input, beneficiary, id)), timely)
  {
    hide Safe, Tidy, Requesting;
    RequestStep(w, limits, input, beneficiary, id, timely);
  }

  lemma JudgedStatus(s: Store, limits: Option<Limits>, input: RequestInput, beneficiary: Option<Beneficiary>, now: Time)
    requires Tidy(s) && Judge(s, limits, input, beneficiary, now).Admit?
    ensures Judge(s, limits, input, beneficiary, now).status in {Requested, Approved}
  {
    hide Tidy, Committed, FindReference;
  }

  lemma DraftNext(w: World, tid: int, limits: Option<Limits>, input: RequestInput, beneficiary: Option<Beneficiary>, timely: bool)
    requires Safe(w, timely) && Enabled(w, Draft(tid, limits, input, beneficiary))
    ensures Safe(Next(w, Draft(tid, limits, input, beneficiary)), timely)
  {
    JudgedStatus(w.store, limits, input, beneficiary, w.now);
    hide Safe, Tidy, Judge;
    var v := Judge(w.store, limits, input, beneficiary, w.now);
    DraftStep(w, tid, input, v.destination, v.status, timely);
  }

  lemma InsertNext(w: World, tid: int, id: string, timely: bool)
    requires Safe(w, timely) && Enabled(w, Insert(tid, id))
    ensures Safe(Next(w, Insert(tid, id)), timely)
  {
    hide Safe, Tidy, Inserted, NewPayout;
    InsertTaskStep(w, tid, id, timely);
  }

  lemma ReadNext(w: World, tid: int, id: string, timely: bool)
    requires Safe(w, timely) && Enabled(w, Read(tid, id))
    ensures Safe(Next(w, Read(tid, id)), timely)
  {
    hide Safe, Tidy;
    ReadStep(w, tid, id, timely);
  }

  lemma ApproveNext(w: World, tid: int, admin: string, timely: bool)
    requires Safe(w, timely) && Enabled(w, Approve(tid, admin))
    ensures Safe(Next(w, Approve(tid, admin)), timely)
  {
    CopyOf(w, tid, timely);
    hide Safe, Tidy, Approving, Rejecting, CopySafe;
    DecisionStep(w, tid, w.tasks[tid].p, admin, "", timely);
  }

  lemma RejectNext(w: World, tid: int, admin: string, reason: string, timely: bool)
    requires Safe(w, timely) && Enabled(w, Reject(tid, admin, reason))
    ensures Safe(Next(w, Reject(tid, admin, reason)), timely)
  {
    CopyOf(w, tid, timely);
    hide Safe, Tidy, Approving, Rejecting, CopySafe;
    DecisionStep(w, tid, w.tasks[tid].p, admin, reason, timely);
  }

  lemma CallNext(w: World, tid: int, timely: bool)
    requires Safe(w, timely) && Enabled(w, Call(tid))
    ensures Safe(Next(w, Call(tid)), timely)
  {
    hide Safe, Tidy, AfterCall;
    CallStep(w, tid, timely);
  }

  lemma ReceiveNext(w: World, tid: int, accept: bool, reference: string, x: Iris.Exchange, timely: bool)
    requires Safe(w, timely) && Enabled(w, Receive(tid, accept, reference, x))
    requires timely ==> Timely(w, Receive(tid, accept, reference, x))
    ensures Safe(Next(w, Receive(tid, accept, reference, x)), timely)
  {
    hide Safe, Tidy, Arrive;
    ReceiveStep(w, tid, accept, reference, x, timely);
  }

  lemma ProgressNext(w: World, key: string, fate: Fate, timely: bool)
    requires Safe(w, timely) && Enabled(w, Progress(key, fate))
    ensures Safe(Next(w, Progress(key, fate)), timely)
  {
    hide Safe, Tidy;
    ProgressStep(w, key, fate, timely);
  }

  lemma TakeAnswerNext(w: World, tid: int, timely: bool)
    requires Safe(w, timely) && Enabled(w, TakeAnswer(tid))
    ensures Safe(Next(w, TakeAnswer(tid)), timely)
  {
    hide Safe, Tidy, Iris.CreateOutcome;
    AnswerStep(w, tid, Iris.CreateOutcome(w.wire[tid].answer), timely);
  }

  lemma GiveUpNext(w: World, tid: int, timely: bool)
    requires Safe(w, timely) && Enabled(w, GiveUp(tid))
    ensures Safe(Next(w, GiveUp(tid)), timely)
  {
    hide Safe, Tidy;
    AnswerStep(w, tid, Err(Iris.OutcomeUnknown), timely);
  }

  lemma RecordCreateNext(w: World, tid: int, timely: bool)
    requires Safe(w, timely) && Enabled(w, RecordCreate(tid))
    ensures Safe(Next(w, RecordCreate(tid)), timely)
  {
    CopyOf(w, tid, timely);
    hide Safe, Tidy, CopySafe, CreateRecorded, PollRecorded;
    RecordStep(w, tid, w.tasks[tid].p, w.tasks[tid].outcome, timely);
  }

  lemma PollNext(w: World, tid: int, x: Iris.Exchange, timely: bool)
    requires Safe(w, timely) && Enabled(w, Poll(tid, x))
    ensures Safe(Next(w, Poll(tid, x)), timely)
  {
    hide Safe, Tidy, Touched, Iris.GetPayout;
    TouchStep(w, tid, w.tasks[tid].p.facts.id, timely);
    PollStep(w, tid, Iris.GetPayout(x), timely);
  }

  lemma RecordPollNext(w: World, tid: int, timely: bool)
    requires Safe(w, timely) && Enabled(w, RecordPoll(tid))
    ensures Safe(Next(w, RecordPoll(tid)), timely)
  {
    CopyOf(w, tid, timely);
    hide Safe, Tidy, CopySafe, CreateRecorded, PollRecorded;
    RecordStep(w, tid, w.tasks[tid].p, w.tasks[tid].outcome, timely);
  }

  lemma DropNext(w: World, tid: int, timely: bool)
    requires Safe(w, timely) && Enabled(w, Drop(tid))
    ensures Safe(Next(w, Drop(tid)), timely)
  {
    hide Safe, Tidy;
    DropStep(w, tid, timely);
  }

  /** Every step keeps the invariant; its timely part, as long as requests arrive in time. */
  lemma NextSafe(w: World, step: Step, timely: bool)
    requires Safe(w, timely) && Enabled(w, step) && (timely ==> Timely(w, step))
    ensures Safe(Next(w, step), timely)
  {
    hide Safe, Enabled, Next, Timely, Tidy;
    match step
    case Tick(elapsed) => TickNext(w, elapsed, timely);
    case Request(limits, input, beneficiary, id) => RequestNext(w, limits, input, beneficiary, id, timely);
    case Draft(tid, limits, input, beneficiary) => DraftNext(w, tid, limits, input, beneficiary, timely);
    case Insert(tid, id) => InsertNext(w, tid, id, timely);
    case Read(tid, id) => ReadNext(w, tid, id, timely);
    case Approve(tid, admin) => ApproveNext(w, tid, admin, timely);
    case Reject(tid, admin, reason) => RejectNext(w, tid, admin, reason, timely);
    case Call(tid) => CallNext(w, tid, timely);
    case Receive(tid, accept, reference, x) => ReceiveNext(w, tid, accept, reference, x, timely);
    case Progress(key, fate) => ProgressNext(w, key, fate, timely);
    case TakeAnswer(tid) => TakeAnswerNext(w, tid, timely);
    case GiveUp(tid) => GiveUpNext(w, tid, timely);
    case RecordCreate(tid) => RecordCreateNext(w, tid, timely);
    case Poll(tid, x) => PollNext(w, tid, x, timely);
    case RecordPoll(tid) => RecordPollNext(w, tid, timely);
    case Drop(tid) => DropNext(w, tid, timely);
  }

  lemma {:induction false} RunSafe(w: World, steps: seq<Step>, timely: bool)
    requires Safe(w, timely) && Allowed(w, steps) && (timely ==> InTime(w, steps))
    ensures Safe(Run(w, steps), timely)
    decreases |steps|
  {
    SafeIsTidy(w, timely);
    hide Safe, Enabled, Next, Tidy, Timely;
    if steps != [] {
      NextSafe(w, steps[0], timely);
      RunSafe(Next(w, steps[0]), steps[1..], timely);
    }
  }

  // ---- how a step changes the tables ----

  datatype Change = Unchanged | Touches(id: string) | Inserts(p: Payout)

  ghost predicate Changes(s: Store, s': Store, c: Change)
    requires Tidy(s)
  {
    match c
    case Unchanged => s' == s
    case Touches(id) => Effect(s, s', id)
    case Inserts(p) => p.facts.id !in s.payouts && s' == Inserted(s, p).0
  }

  lemma CallTables(w: World, tid: int)
    requires Tidy(w.store) && Enabled(w, Call(tid))
    ensures var p := w.tasks[tid].p;
      Next(w, Call(tid)).store
      == if p.status == Approved || Recoverable(p, w.now) then w.store else Touched(w.store, p.facts.id, w.now)
  {
    hide Touched, Tidy, Iris.HeaderKey, Iris.Sendable;
  }

  lemma PollTables(w: World, tid: int, x: Iris.Exchange)
    requires Tidy(w.store) && Enabled(w, Poll(tid, x))
    ensures var p := w.tasks[tid].p;
      Next(w, Poll(tid, x)).store == if p.referenceNo.None? then Touched(w.store, p.facts.id, w.now) else w.store
  {
    hide Touched, Tidy, Iris.GetPayout;
  }

  lemma TouchChanges(s: Store, s': Store, id: string, now: Time) returns (c: Change)
    requires Tidy(s) && (s' == s || s' == Touched(s, id, now))
    ensures Changes(s, s', c) && !c.Inserts?
  {
    hide Effect, Touched, Tidy;
    TouchedHasEffect(s, id, now);
    c := if s' == s then Unchanged else Touches(id);
  }

  lemma CallChange(w: World, tid: int) returns (c: Change)
    requires Safe(w, false) && Enabled(w, Call(tid))
    ensures Changes(w.store, Next(w, Call(tid)).store, c) && !c.Inserts?
  {
    SafeIsTidy(w, false);
    CallTables(w, tid);
    hide *;
    c := TouchChanges(w.store, Next(w, Call(tid)).store, w.tasks[tid].p.facts.id, w.now);
  }

  lemma TaskCopies(t: Task, s: Store)
    requires Tidy(s) && TaskSafe(t, s) && !t.Drafted?
    ensures Copies(s, t.p)
    ensures t.Answered? ==> (t.p.status == Approved || t.p.status == Unresolved) && Plausible(t.outcome)
    ensures t.Polled? ==> Plausible(t.outcome)
  {
    hide Tidy, Plausible, History;
  }

  lemma CopiesOf(w: World, tid: int)
    requires Safe(w, false) && tid in w.tasks && !w.tasks[tid].Drafted?
    ensures Tidy(w.store) && Copies(w.store, w.tasks[tid].p)
    ensures w.tasks[tid].Answered? ==>
      (w.tasks[tid].p.status == Approved || w.tasks[tid].p.status == Unresolved) && Plausible(w.tasks[tid].outcome)
    ensures w.tasks[tid].Polled? ==> Plausible(w.tasks[tid].outcome)
  {
    hide *;
    SafeIsTidy(w, false);
    CopyOf(w, tid, false);
    TaskCopies(w.tasks[tid], w.store);
  }

  lemma ApproveChange(w: World, tid: int, admin: string) returns (c: Change)
    requires Safe(w, false) && Enabled(w, Approve(tid, admin))
    ensures Changes(w.store, Next(w, Approve(tid, admin)).store, c) && !c.Inserts?
  {
    hide Safe, Approving, Effect, Tidy, Copies;
    CopiesOf(w, tid);
    c := Touches(w.tasks[tid].p.facts.id);
    ApprovingHasEffect(w.store, w.tasks[tid].p, admin, w.now);
  }

  lemma RejectChange(w: World, tid: int, admin: string, reason: string) returns (c: Change)
    requires Safe(w, false) && Enabled(w, Reject(tid, admin, reason))
    ensures Changes(w.store, Next(w, Reject(tid, admin, reason)).store, c) && !c.Inserts?
  {
    hide Safe, Rejecting, Effect, Tidy, Copies;
    CopiesOf(w, tid);
    c := Touches(w.tasks[tid].p.facts.id);
    RejectingHasEffect(w.store, w.tasks[tid].p, admin, reason, w.now);
  }

  lemma RecordCreateChange(w: World, tid: int) returns (c: Change)
    requires Safe(w, false) && Enabled(w, RecordCreate(tid))
    ensures Changes(w.store, Next(w, RecordCreate(tid)).store, c) && !c.Inserts?
  {
    hide Safe, CreateRecorded, Effect, Tidy, Copies, Plausible;
    CopiesOf(w, tid);
    c := Touches(w.tasks[tid].p.facts.id);
    CreateRecordedHasEffect(w.store, w.tasks[tid].p, w.tasks[tid].outcome, w.now);
  }

  lemma RecordPollChange(w: World, tid: int) returns (c: Change)
    requires Safe(w, false) && Enabled(w, RecordPoll(tid))
    ensures Changes(w.store, Next(w, RecordPoll(tid)).store, c) && !c.Inserts?
  {
    hide Safe, PollRecorded, Effect, Tidy, Copies, Plausible;
    CopiesOf(w, tid);
    c := Touches(w.tasks[tid].p.facts.id);
    PollRecordedHasEffect(w.store, w.tasks[tid].p, w.tasks[tid].outcome, w.now);
  }

  lemma PollChange(w: World, tid: int, x: Iris.Exchange) returns (c: Change)
    requires Safe(w, false) && Enabled(w, Poll(tid, x))
    ensures Changes(w.store, Next(w, Poll(tid, x)).store, c) && !c.Inserts?
  {
    SafeIsTidy(w, false);
    PollTables(w, tid, x);
    hide *;
    c := TouchChanges(w.store, Next(w, Poll(tid, x)).store, w.tasks[tid].p.facts.id, w.now);
  }

  lemma RequestChange(w: World, limits: Option<Limits>, input: RequestInput, beneficiary: Option<Beneficiary>, id: string)
    returns (c: Change)
    requires Safe(w, false) && Enabled(w, Request(limits, input, beneficiary, id))
    ensures Changes(w.store, Next(w, Request(limits, input, beneficiary, id)).store, c)
    ensures c.Inserts? ==> c.p.facts.createdAt == w.now
  {
    SafeIsTidy(w, false);
    hide Safe, Judge, Inserted, Tidy;
    var v := Judge(w.store, limits, input, beneficiary, w.now);
    c := if v.Admit? then Inserts(NewPayout(id, input, v.destination, v.status, w.now)) else Unchanged;
  }

  lemma InsertChange(w: World, tid: int, id: string) returns (c: Change)
    requires Safe(w, false) && Enabled(w, Insert(tid, id))
    ensures Changes(w.store, Next(w, Insert(tid, id)).store, c)
    ensures c.Inserts? ==> c.p.facts.createdAt == w.now
  {
    SafeIsTidy(w, false);
    hide Safe, Inserted, Tidy;
    var t := w.tasks[tid];
    c := Inserts(NewPayout(id, t.input, t.destination, t.status, w.now));
  }

  predicate LeavesTables(step: Step) {
    step.Tick? || step.Draft? || step.Read? || step.Receive? || step.Progress? || step.TakeAnswer? || step.GiveUp?
    || step.Drop?
  }

  lemma OtherChange(w: World, step: Step)
    requires Tidy(w.store) && Enabled(w, step) && LeavesTables(step)
    ensures Next(w, step).store == w.store
  {
    hide Tidy, Judge, Arrive, Iris.CreateOutcome;
  }

  lemma NextStore(w: World, step: Step) returns (c: Change)
    requires Safe(w, false) && Enabled(w, step)
    ensures Changes(w.store, Next(w, step).store, c)
    ensures c.Inserts? ==> (step.Request? || step.Insert?) && c.p.facts.createdAt == w.now
  {
    SafeIsTidy(w, false);
    if LeavesTables(step) {
      OtherChange(w, step);
      hide *;
      c := Unchanged;
      UnchangedChanges(w.store);
    } else {
      c := BusyChange(w, step);
    }
  }

  lemma LeftTables(step: Step)
    requires step.Tick? || step.Draft? || step.Read? || step.Receive? || step.Progress? || step.TakeAnswer? || step.GiveUp?
             || step.Drop?
    ensures LeavesTables(step)
  {
  }

  lemma BusyChange(w: World, step: Step) returns (c: Change)
    requires Safe(w, false) && Enabled(w, step) && !LeavesTables(step)
    ensures Changes(w.store, Next(w, step).store, c)
    ensures c.Inserts? ==> (step.Request? || step.Insert?) && c.p.facts.createdAt == w.now
  {
    hide *;
    match step
    case Request(limits, input, beneficiary, id) => c := RequestChange(w, limits, input, beneficiary, id);
    case Insert(tid, id) => c := InsertChange(w, tid, id);
    case Approve(tid, admin) => c := ApproveChange(w, tid, admin);
    case Reject(tid, admin, reason) => c := RejectChange(w, tid, admin, reason);
    case Call(tid) => c := CallChange(w, tid);
    case RecordCreate(tid) => c := RecordCreateChange(w, tid);
    case Poll(tid, x) => c := PollChange(w, tid, x);
    case RecordPoll(tid) => c := RecordPollChange(w, tid);
    case _ =>
      LeftTables(step);
      assert false;
  }

  lemma UnchangedChanges(s: Store)
    requires Tidy(s)
    ensures Changes(s, s, Unchanged)
  {
  }

  lemma ChangeGrows(s: Store, s': Store, c: Change)
    requires Tidy(s) && Tidy(s') && Changes(s, s', c)
    ensures Grows(s, s')
  {
    hide Effect, Inserted;
    match c
    case Unchanged =>
    case Touches(id) => EffectGrows(s, s', id);
    case Inserts(p) => InsertedGrows(s, p);
  }

  lemma NextTime(w: World, step: Step)
    requires Tidy(w.store) && Enabled(w, step)
    ensures w.now <= Next(w, step).now
  {
    hide Tidy, Judge, Arrive, Iris.CreateOutcome, Requesting, Inserted, Approving, Rejecting, CreateRecorded, PollRecorded,
         Touched, NewPayout, Iris.HeaderKey, Iris.Sendable, Iris.GetPayout;
  }

  lemma NextGrows(w: World, step: Step)
    requires Safe(w, false) && Enabled(w, step)
    ensures Tidy(w.store) && Grows(w.store, Next(w, step).store) && w.now <= Next(w, step).now
  {
    SafeIsTidy(w, false);
    hide *;
    var c := NextStore(w, step);
    NextTime(w, step);
    ChangeGrows(w.store, Next(w, step).store, c);
  }
}
