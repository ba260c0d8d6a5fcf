/** Keyset pages: newest first, continued from the last identifier seen. */
module Paging {
  import opened Wrappers

  const DEFAULT_LIMIT := 25
  const MAX_LIMIT := 100

  /** `startingAfter` continues after the row with that identifier. */
  datatype Page = Page(limit: int, startingAfter: Option<nat>)

  function Normalize(p: Page): (q: Page)
    ensures 1 <= q.limit <= MAX_LIMIT && q.startingAfter == p.startingAfter
    ensures 1 <= p.limit <= MAX_LIMIT ==> q == p
    ensures (p.limit <= 0 ==> q.limit == 25) && (p.limit > 100 ==> q.limit == 100)
  {
    var limit := if p.limit <= 0 then DEFAULT_LIMIT else p.limit;
    p.(limit := if limit > MAX_LIMIT then MAX_LIMIT else limit)
  }

  /** One row more than the page holds shows whether there are further ones. */
  function FetchLimit(p: Page): int { Normalize(p).limit + 1 }

  datatype List<T> = List(items: seq<T>, hasMore: bool, limit: int)

  function NewList<T>(items: seq<T>, p: Page): (l: List<T>)
    ensures l.limit == (if p.limit <= 0 then 25 else if p.limit > 100 then 100 else p.limit)
    ensures l.hasMore <==> |items| > l.limit
    ensures l.hasMore ==> |l.items| == l.limit
    ensures |l.items| <= l.limit && l.items <= items && (!l.hasMore ==> l.items == items)
  {
    var limit := Normalize(p).limit;
    var hasMore := |items| > limit;
    List(if hasMore then items[..limit] else items, hasMore, limit)
  }

  // ---- the query ----

  datatype Field = ApplicationId | Status | Gateway | ApplicationOrderId | GatewayOrderId | GatewayTransactionId

  /** Identifiers are numbers here; their text is ordered as the numbers are. */
  datatype Row = Row(id: nat, fields: map<Field, string>, createdAt: int)

  datatype Filter = Filter(wanted: seq<(Field, string)>, createdFrom: Option<int>, createdTo: Option<int>)

  datatype Condition = Equals(field: Field, value: string) | From(at: int) | Until(at: int) | Before(id: nat)

  predicate Holds(c: Condition, r: Row) {
    match c
    case Equals(field, value) => field in r.fields && r.fields[field] == value
    case From(at) => at <= r.createdAt
    case Until(at) => r.createdAt <= at
    case Before(id) => r.id < id
  }

  predicate HoldAll(cs: seq<Condition>, r: Row) {
    forall i :: 0 <= i < |cs| ==> Holds(cs[i], r)
  }

  /** An empty value asks for nothing. */
  predicate Wanted(f: Filter, r: Row) {
    (forall i :: 0 <= i < |f.wanted| && f.wanted[i].1 != "" ==> Holds(Equals(f.wanted[i].0, f.wanted[i].1), r))
    && (f.createdFrom.Some? ==> f.createdFrom.value <= r.createdAt)
    && (f.createdTo.Some? ==> r.createdAt <= f.createdTo.value)
  }

  predicate Matches(f: Filter, before: Option<nat>, r: Row) {
    Wanted(f, r) && (before.Some? ==> r.id < before.value)
  }

  /** The rows a table holds, oldest first. */
  ghost predicate Ascending(t: seq<Row>) {
    forall i, j :: 0 <= i < j < |t| ==> t[i].id < t[j].id
  }

  /** The matching rows, newest first. */
  function Newest(t: seq<Row>, f: Filter, before: Option<nat>): seq<Row> {
    if t == [] then []
    else
      var last := t[|t| - 1];
      (if Matches(f, before, last) then [last] else []) + Newest(t[..|t| - 1], f, before)
  }

  function Listed(t: seq<Row>, f: Filter, p: Page): List<Row> {
    var all := Newest(t, f, p.startingAfter);
    NewList(if |all| > FetchLimit(p) then all[..FetchLimit(p)] else all, p)
  }

  /** A page holds the newest matching rows after its cursor, as many as fit, and says whether there are more. */
  lemma PageIsExact(t: seq<Row>, f: Filter, p: Page)
    ensures var l, all := Listed(t, f, p), Newest(t, f, p.startingAfter);
      && (l.hasMore <==> |all| > l.limit) && l.items == (if |all| > l.limit then all[..l.limit] else all)
      && l.limit == if p.limit <= 0 then 25 else if p.limit > 100 then 100 else p.limit
  {
    hide Newest;
  }

  method BuildConditions(f: Filter, p: Page) returns (cs: seq<Condition>)
    ensures forall r :: HoldAll(cs, r) <==> Matches(f, p.startingAfter, r)
  {
    cs := [];
    for i := 0 to |f.wanted|
      invariant forall r :: HoldAll(cs, r) <==>
        forall k :: 0 <= k < i && f.wanted[k].1 != "" ==> Holds(Equals(f.wanted[k].0, f.wanted[k].1), r)
    {
      hide Holds;
      if f.wanted[i].1 != "" {
        cs := AddCondition(cs, Equals(f.wanted[i].0, f.wanted[i].1));
      }
    }
    if f.createdFrom.Some? {
      cs := AddCondition(cs, From(f.createdFrom.value));
    }
    if f.createdTo.Some? {
      cs := AddCondition(cs, Until(f.createdTo.value));
    }
    if p.startingAfter.Some? {
      cs := AddCondition(cs, Before(p.startingAfter.value));
    }
  }

  method AddCondition(cs: seq<Condition>, c: Condition) returns (out: seq<Condition>)
    ensures forall r :: HoldAll(out, r) <==> HoldAll(cs, r) && Holds(c, r)
  {
    out := cs + [c];
    forall r ensures HoldAll(out, r) <==> HoldAll(cs, r) && Holds(c, r) {
      AddedHolds(cs, c, r);
    }
  }

  lemma AddedHolds(cs: seq<Condition>, c: Condition, r: Row)
    ensures HoldAll(cs + [c], r) <==> HoldAll(cs, r) && Holds(c, r)
  {
    hide Holds;
    var out := cs + [c];
    assert out[|cs|] == c && forall i :: 0 <= i < |cs| ==> out[i] == cs[i];
  }

  /** One page: the conditions, the rows they select from the newest down, and the sentinel trimmed. */
  method ListRows(t: seq<Row>, f: Filter, page: Page) returns (l: List<Row>)
    ensures l == Listed(t, f, page)
  {
    var p := Normalize(page);
    var cs := BuildConditions(f, p);
    var limit := FetchLimit(p);
    ghost var all := Newest(t, f, page.startingAfter);
    hide Newest, Wanted, HoldAll;
    var out := [];
    var i := |t|;
    assert t[..|t|] == t;
    while i > 0 && |out| < limit
      invariant 0 <= i <= |t| && |out| <= limit
      invariant all == out + Newest(t[..i], f, page.startingAfter)
    {
      NewestStep(t, f, page.startingAfter, i);
      if HoldAll(cs, t[i - 1]) {
        out := out + [t[i - 1]];
      }
      i := i - 1;
    }
    NewestOfNone(t, f, page.startingAfter);
    assert out == if |all| > limit then all[..limit] else all;
    return NewList(out, p);
  }

  lemma NewestStep(t: seq<Row>, f: Filter, b: Option<nat>, i: nat)
    requires 0 < i <= |t|
    ensures Newest(t[..i], f, b) == (if Matches(f, b, t[i - 1]) then [t[i - 1]] else []) + Newest(t[..i - 1], f, b)
  {
    assert t[..i][..i - 1] == t[..i - 1];
  }

  lemma NewestOfNone(t: seq<Row>, f: Filter, b: Option<nat>)
    ensures Newest(t[..0], f, b) == []
  {
  }

  // ---- walking the pages ----

  /** Every page read from the table as it is then, from where the one before ended; with whether the
      last page read said it was the last. */
  function Walk(ts: seq<seq<Row>>, f: Filter, p: Page): (seq<Row>, bool)
    decreases |ts|
  {
    if ts == [] then ([], false)
    else
      var l := Listed(ts[0], f, p);
      if !l.hasMore then (l.items, true)
      else
        var (more, done) := Walk(ts[1..], f, p.(startingAfter := Some(l.items[|l.items| - 1].id)));
        (l.items + more, done)
  }

  /** Rows only arrive, with larger identifiers than any before. */
  ghost predicate Arriving(ts: seq<seq<Row>>) {
    (forall i :: 0 <= i < |ts| ==> Ascending(ts[i])) && forall i, j :: 0 <= i <= j < |ts| ==> ts[i] <= ts[j]
  }

  lemma {:induction false} AllBelow(t: seq<Row>, f: Filter, b: Option<nat>, c: Option<nat>)
    requires forall i :: 0 <= i < |t| ==> (b.Some? ==> t[i].id < b.value) && (c.Some? ==> t[i].id < c.value)
    ensures Newest(t, f, b) == Newest(t, f, c)
  {
    hide Wanted;
    if t != [] {
      AllBelow(t[..|t| - 1], f, b, c);
    }
  }

  lemma {:induction false} FromTable(t: seq<Row>, f: Filter, b: Option<nat>, k: nat)
    requires k < |Newest(t, f, b)|
    ensures exists i :: 0 <= i < |t| && t[i] == Newest(t, f, b)[k] && Matches(f, b, t[i])
  {
    hide Matches;
    var n := |t| - 1;
    var rest := Newest(t[..n], f, b);
    if Matches(f, b, t[n]) {
      if k > 0 {
        FromTable(t[..n], f, b, k - 1);
        var i :| 0 <= i < n && t[..n][i] == rest[k - 1] && Matches(f, b, t[..n][i]);
        assert t[i] == rest[k - 1];
      }
    } else {
      FromTable(t[..n], f, b, k);
      var i :| 0 <= i < n && t[..n][i] == rest[k] && Matches(f, b, t[..n][i]);
      assert t[i] == rest[k];
    }
  }

  /** Continuing after the k-th row gives exactly the rows after it. */
  lemma {:induction false} ContinuesAfter(t: seq<Row>, f: Filter, b: Option<nat>, k: nat)
    requires Ascending(t) && k < |Newest(t, f, b)|
    ensures Newest(t, f, Some(Newest(t, f, b)[k].id)) == Newest(t, f, b)[k + 1..]
  {
    hide Wanted;
    var n := |t| - 1;
    var r, rest, all := t[n], Newest(t[..n], f, b), Newest(t, f, b);
    var c := all[k].id;
    FromTable(t, f, b, k);
    if Matches(f, b, r) {
      assert all == [r] + rest;
      if k == 0 {
        AllBelow(t[..n], f, b, Some(c));
      } else {
        ContinuesAfter(t[..n], f, b, k - 1);
        FromTable(t[..n], f, b, k - 1);
      }
    } else {
      ContinuesAfter(t[..n], f, b, k);
    }
  }

  /** Rows that arrive above the cursor are not seen. */
  lemma {:induction false} ArrivalsAreAbove(t: seq<Row>, u: seq<Row>, f: Filter, c: nat)
    requires t <= u && Ascending(u) && exists i :: 0 <= i < |t| && c <= t[i].id
    ensures Newest(u, f, Some(c)) == Newest(t, f, Some(c))
    decreases |u|
  {
    hide Wanted;
    if |u| > |t| {
      var n := |u| - 1;
      ArrivalsAreAbove(t, u[..n], f, c);
      assert u[n].id > c;
    } else {
      assert u == t;
    }
  }

  lemma ListedIsFirst(t: seq<Row>, f: Filter, p: Page)
    ensures var all, l := Newest(t, f, p.startingAfter), Listed(t, f, p);
      && l.hasMore == (|all| > Normalize(p).limit)
      && l.items == (if l.hasMore then all[..Normalize(p).limit] else all)
      && l.limit == Normalize(p).limit
  {
  }

  /** The rows read so far are the first of all there are; if the walk ended they are all, and with room
      for all of them it has ended. */
  ghost predicate Exact(rows: seq<Row>, done: bool, all: seq<Row>, room: nat) {
    rows <= all && (done ==> rows == all) && (room >= |all| ==> done)
  }

  lemma OnePageMore(all: seq<Row>, limit: nat, more: seq<Row>, done: bool, room: nat)
    requires limit <= |all| && Exact(more, done, all[limit..], room)
    ensures Exact(all[..limit] + more, done, all, room + limit)
  {
    assert all == all[..limit] + all[limit..];
  }

  lemma LastPage(all: seq<Row>, room: nat)
    ensures Exact(all, true, all, room)
  {
  }

  lemma NoPageYet(all: seq<Row>)
    requires all != []
    ensures Exact([], false, all, 0)
  {
  }

  /** Walking the pages returns the rows that matched when the walk began, newest first and each once,
      whatever arrives meanwhile, and it ends as soon as it has read enough pages to hold them. */
  lemma {:induction false} WalkIsExact(ts: seq<seq<Row>>, f: Filter, p: Page)
    requires Arriving(ts) && ts != []
    ensures var (rows, done) := Walk(ts, f, p);
      Exact(rows, done, Newest(ts[0], f, p.startingAfter), Capacity(|ts|, Normalize(p).limit))
    decreases |ts|
  {
    if Listed(ts[0], f, p).hasMore {
      var next := Continued(ts[0], f, p);
      if |ts| > 1 {
        ArrivingRest(ts);
        hide *;
        WalkIsExact(ts[1..], f, next);
        var (more, done) := Walk(ts[1..], f, next);
        PageAndMore(ts, f, p, more, done);
      } else {
        OnlyPage(ts, f, p);
      }
    } else {
      ListedIsFirst(ts[0], f, p);
      WalkStep(ts, f, p);
      LastPage(Newest(ts[0], f, p.startingAfter), Capacity(|ts|, Normalize(p).limit));
    }
  }

  /** The request for the page after this one. */
  function Continued(t: seq<Row>, f: Filter, p: Page): (q: Page)
    requires Listed(t, f, p).hasMore
    ensures q.limit == p.limit
  {
    var l := Listed(t, f, p);
    p.(startingAfter := Some(l.items[|l.items| - 1].id))
  }

  lemma ContinuedCursor(t: seq<Row>, f: Filter, p: Page)
    requires Listed(t, f, p).hasMore
    ensures var all, limit := Newest(t, f, p.startingAfter), Normalize(p).limit;
      |all| > limit && Listed(t, f, p).items == all[..limit]
      && Continued(t, f, p) == p.(startingAfter := Some(all[limit - 1].id))
  {
    ListedIsFirst(t, f, p);
    hide Newest, Listed, Normalize;
  }

  lemma OnlyPage(ts: seq<seq<Row>>, f: Filter, p: Page)
    requires |ts| == 1 && Listed(ts[0], f, p).hasMore
    ensures var (rows, done) := Walk(ts, f, p);
      Exact(rows, done, Newest(ts[0], f, p.startingAfter), Capacity(|ts|, Normalize(p).limit))
  {
    hide *;
    var all, limit := Newest(ts[0], f, p.startingAfter), Normalize(p).limit;
    ContinuedCursor(ts[0], f, p);
    WalkStep(ts, f, p);
    assert ts[1..] == [];
    WalkOfNone(f, Continued(ts[0], f, p));
    NoneHeld(limit);
    OneLess(1, limit);
    NoPageYet(all[limit..]);
    OnePageMore(all, limit, [], false, 0);
  }

  lemma PageAndMore(ts: seq<seq<Row>>, f: Filter, p: Page, more: seq<Row>, done: bool)
    requires Arriving(ts) && |ts| > 1 && Listed(ts[0], f, p).hasMore && (more, done) == Walk(ts[1..], f, Continued(ts[0], f, p))
    requires var next := Continued(ts[0], f, p);
      Exact(more, done, Newest(ts[1..][0], f, next.startingAfter), Capacity(|ts[1..]|, Normalize(next).limit))
    ensures Walk(ts, f, p).1 == done
    ensures Exact(Walk(ts, f, p).0, done, Newest(ts[0], f, p.startingAfter), Capacity(|ts|, Normalize(p).limit))
  {
    hide *;
    var all, limit := Newest(ts[0], f, p.startingAfter), Normalize(p).limit;
    ContinuedCursor(ts[0], f, p);
    SameLimit(p, Continued(ts[0], f, p));
    RestContinues(ts, f, p, limit - 1);
    WalkStep(ts, f, p);
    OneLess(|ts|, limit);
    OnePageMore(all, limit, more, done, Capacity(|ts| - 1, limit));
  }

  lemma WalkStep(ts: seq<seq<Row>>, f: Filter, p: Page)
    requires ts != []
    ensures var l := Listed(ts[0], f, p);
      Walk(ts, f, p)
      == if !l.hasMore then (l.items, true)
         else
           var (more, done) := Walk(ts[1..], f, Continued(ts[0], f, p));
           (l.items + more, done)
  {
    hide Listed;
  }

  lemma WalkOfNone(f: Filter, p: Page)
    ensures Walk([], f, p) == ([], false)
  {
  }

  lemma SameLimit(p: Page, q: Page)
    requires q.limit == p.limit
    ensures Normalize(q).limit == Normalize(p).limit
  {
  }

  /** How many rows a number of pages can hold. */
  function Capacity(pages: nat, limit: nat): nat { pages * limit }

  lemma NoneHeld(limit: nat)
    ensures Capacity(0, limit) == 0
  {
  }

  lemma OneLess(n: nat, limit: nat)
    requires n > 0
    ensures Capacity(n, limit) == Capacity(n - 1, limit) + limit
  {
  }

  /** The next page starts where this one ended, in the table as it is by then. */
  lemma RestContinues(ts: seq<seq<Row>>, f: Filter, p: Page, k: nat)
    requires Arriving(ts) && |ts| > 1 && k < |Newest(ts[0], f, p.startingAfter)|
    ensures var all := Newest(ts[0], f, p.startingAfter); Newest(ts[1], f, Some(all[k].id)) == all[k + 1..]
  {
    assert Ascending(ts[0]) && Ascending(ts[1]) && ts[0] <= ts[1];
    hide Ascending, Newest, Wanted;
    ContinuesAfter(ts[0], f, p.startingAfter, k);
    FromTable(ts[0], f, p.startingAfter, k);
    ArrivalsAreAbove(ts[0], ts[1], f, Newest(ts[0], f, p.startingAfter)[k].id);
  }

  lemma ArrivingRest(ts: seq<seq<Row>>)
    requires Arriving(ts) && |ts| > 1
    ensures Arriving(ts[1..]) && Ascending(ts[1]) && ts[0] <= ts[1]
  {
    hide Ascending;
  }

  /** In the list of matching rows, every row of the table that matches is there, once, and identifiers
      fall. */
  lemma {:induction false} NewestIsSorted(t: seq<Row>, f: Filter, b: Option<nat>)
    requires Ascending(t)
    ensures var all := Newest(t, f, b);
      && (forall i, j :: 0 <= i < j < |all| ==> all[i].id > all[j].id)
      && (forall r :: r in all <==> r in t && Matches(f, b, r))
  {
    hide Matches;
    if t != [] {
      var n := |t| - 1;
      NewestIsSorted(t[..n], f, b);
      assert t == t[..n] + [t[n]];
      forall r | r in Newest(t[..n], f, b) ensures r.id < t[n].id {
        var i :| 0 <= i < n && t[..n][i] == r;
        assert t[i] == r;
      }
    }
  }
}
