/** The batch window as the list of its items, oldest first, and what flushing does to it. */
module Batches {
  import opened Core
  import opened Lists

  datatype Item = Item(id: string, event: Event, addedAt: Time)

  datatype WindowError = WindowFull | UnknownItem

  type Items = seq<Item>

  function Ids(items: Items): set<string> {
    set item | item in items :: item.id
  }

  function IdIn(ids: set<string>): Item -> bool {
    (item: Item) => item.id in ids
  }

  function To(endpoint: string): Item -> bool {
    (item: Item) => item.event.endpoint == endpoint
  }

  function Anywhere(): Item -> bool {
    (item: Item) => true
  }

  function AddedBy(): (Item, Item) -> bool {
    (x: Item, y: Item) => x.addedAt <= y.addedAt
  }

  ghost predicate DistinctItems(items: Items) {
    |Ids(items)| == |items|
  }

  function Refused(items: Items, capacity: int, item: Item): Option<WindowError> {
    if item.id == "" then Some(UnknownItem)
    else if item.id in Ids(items) then None
    else if |items| >= capacity then Some(WindowFull)
    else None
  }

  predicate Accepts(items: Items, capacity: int, item: Item) {
    item.id != "" && item.id !in Ids(items) && |items| < capacity
  }

  /** An item already waiting is silently left as it is. */
  function Added(items: Items, capacity: int, item: Item): Items {
    if Accepts(items, capacity, item) then items + [item] else items
  }

  function Removed(items: Items, id: string): Items {
    Drop(items, IdIn({id}))
  }

  predicate Ready(items: Items, interval: Duration, windowAt: Time, now: Time) {
    |items| > 0 && now - windowAt >= interval
  }

  /** `out` is a flush of the items that satisfy `p`: all of them, by age. */
  ghost predicate Flushes(items: Items, p: Item -> bool, out: Items) {
    Sorted(out, AddedBy()) && multiset(out) == multiset(Keep(items, p))
  }

  lemma {:induction false} IdsSize(items: Items)
    ensures |Ids(items)| <= |items|
  {
    if items != [] {
      var front, last := items[..|items| - 1], items[|items| - 1];
      IdsSize(front);
      assert items == front + [last];
      assert Ids(items) == Ids(front) + {last.id};
    }
  }

  lemma DistinctOneMore(items: Items, item: Item)
    ensures DistinctItems(items + [item]) <==> DistinctItems(items) && item.id !in Ids(items)
    ensures Ids(items + [item]) == Ids(items) + {item.id}
  {
    IdsSize(items);
    assert Ids(items + [item]) == Ids(items) + {item.id};
  }

  lemma {:induction false} IdsAfter(items: Items, p: Item -> bool)
    ensures Ids(Keep(items, p)) <= Ids(items)
  {
    forall item | item in Keep(items, p) ensures item in items { KeepMembers(items, p, item); }
  }

  lemma {:induction false} DistinctAfter(items: Items, p: Item -> bool)
    requires DistinctItems(items)
    ensures DistinctItems(Keep(items, p))
  {
    if items != [] {
      var front, last := items[..|items| - 1], items[|items| - 1];
      assert items == front + [last];
      DistinctOneMore(front, last);
      DistinctAfter(front, p);
      IdsAfter(front, p);
      DistinctOneMore(Keep(front, p), last);
      assert Keep(items, p) == if p(last) then Keep(front, p) + [last] else Keep(front, p);
    }
  }

  lemma {:induction false} SameItem(items: Items, x: Item, y: Item)
    requires DistinctItems(items) && x in items && y in items && x.id == y.id
    ensures x == y
  {
    var front, last := items[..|items| - 1], items[|items| - 1];
    assert items == front + [last];
    DistinctOneMore(front, last);
    if x != last && y != last {
      SameItem(front, x, y);
    }
  }

  /** Removing the flushed items by their ids leaves what the flush did not select, in its order. */
  lemma RemovingFlushed(items: Items, p: Item -> bool, out: Items)
    requires DistinctItems(items) && Flushes(items, p, out)
    ensures Drop(items, IdIn(Ids(out))) == Drop(items, p)
    ensures Ids(out) <= Ids(items)
  {
    forall x ensures x in out <==> x in items && p(x) {
      KeepMembers(items, p, x);
      assert x in out <==> x in multiset(out);
    }
    forall x | x in items ensures x.id in Ids(out) <==> p(x) {
      if x.id in Ids(out) {
        var y :| y in out && y.id == x.id;
        SameItem(items, x, y);
      }
    }
    KeepSame(items, Not(IdIn(Ids(out))), Not(p));
  }

  lemma RemovedNext(items: Items, ids: set<string>, id: string)
    ensures Removed(Drop(items, IdIn(ids)), id) == Drop(items, IdIn(ids + {id}))
  {
    KeepTwice(items, Not(IdIn(ids)), Not(IdIn({id})), Not(IdIn(ids + {id})));
  }

  // ---------- Runs ----------

  datatype Action =
    | Add(item: Item)
    | Remove(id: string)
    | Flush(now: Time)
    | FlushFor(endpoint: string, now: Time)

  /** The window with everything it took in, everything flushed and everything removed by hand. */
  datatype Run = Run(items: Items, accepted: Items, flushed: Items, removed: Items)

  datatype Setup = Setup(capacity: int, interval: Duration, windowAt: Time)

  function FlushedBy(items: Items, s: Setup, p: Item -> bool, now: Time): Items {
    if Ready(items, s.interval, s.windowAt, now) then Keep(items, p) else []
  }

  function Left(items: Items, s: Setup, p: Item -> bool, now: Time): Items {
    if Ready(items, s.interval, s.windowAt, now) then Drop(items, p) else items
  }

  function Exec(s: Setup, r: Run, a: Action): Run {
    match a
    case Add(item) =>
      r.(items := Added(r.items, s.capacity, item),
         accepted := r.accepted + if Accepts(r.items, s.capacity, item) then [item] else [])
    case Remove(id) =>
      r.(items := Removed(r.items, id), removed := r.removed + Keep(r.items, IdIn({id})))
    case Flush(now) =>
      r.(items := Left(r.items, s, Anywhere(), now), flushed := r.flushed + FlushedBy(r.items, s, Anywhere(), now))
    case FlushFor(endpoint, now) =>
      r.(items := Left(r.items, s, To(endpoint), now),
         flushed := r.flushed + FlushedBy(r.items, s, To(endpoint), now))
  }

  function After(s: Setup, actions: seq<Action>): Run {
    if actions == [] then Run([], [], [], [])
    else Exec(s, After(s, actions[..|actions| - 1]), actions[|actions| - 1])
  }

  // ---------- When a flush happens, and in what order ----------

  /** Until the interval has passed since the window opened, no flush of a run takes anything. */
  lemma {:induction false} NothingFlushedEarly(s: Setup, actions: seq<Action>)
    requires forall a | a in actions && (a.Flush? || a.FlushFor?) :: a.now < s.windowAt + s.interval
    ensures After(s, actions).flushed == []
  {
    if actions != [] {
      assert actions[|actions| - 1] in actions;
      NothingFlushedEarly(s, actions[..|actions| - 1]);
    }
  }

  /** From then on every flush takes all there is. */
  lemma FlushesOnceOpen(s: Setup, actions: seq<Action>, now: Time)
    requires s.windowAt + s.interval <= now
    ensures var r, t := After(s, actions), After(s, actions + [Flush(now)]);
            t.items == [] && t.flushed == r.flushed + r.items
  {
    var all := actions + [Flush(now)];
    var r := After(s, actions);
    assert all[..|all| - 1] == actions;
    KeepAll(r.items, Anywhere());
    KeepNone(r.items, Not(Anywhere()));
  }

  /** A flush hands out the items it selects and no others, those that waited longest first. */
  lemma FlushedOldestFirst(items: Items, p: Item -> bool, out: Items)
    requires Flushes(items, p, out)
    ensures forall i, j | 0 <= i < j < |out| :: out[i].addedAt <= out[j].addedAt
    ensures forall item :: item in out <==> item in items && p(item)
  {
    forall i, j | 0 <= i < j < |out| ensures out[i].addedAt <= out[j].addedAt {
      assert AddedBy()(out[i], out[j]);
    }
    forall item ensures item in out <==> item in items && p(item) {
      KeepMembers(items, p, item);
      assert item in out <==> item in multiset(out);
    }
  }

  /** A flush for an endpoint takes exactly the items bound for it, and leaves exactly the others. */
  lemma FlushedForEndpoint(items: Items, endpoint: string, out: Items)
    requires Flushes(items, To(endpoint), out)
    ensures forall item :: item in out <==> item in items && item.event.endpoint == endpoint
    ensures forall item :: item in Drop(items, To(endpoint)) <==> item in items && item.event.endpoint != endpoint
  {
    FlushedOldestFirst(items, To(endpoint), out);
    forall item ensures item in Drop(items, To(endpoint)) <==> item in items && item.event.endpoint != endpoint {
      KeepMembers(items, Not(To(endpoint)), item);
    }
  }

  /** What Add answers and does: an item without an id is unknown, one whose id waits already is left as it is, and
      otherwise it goes last, or finds the window full. */
  lemma AddAnswersExactly(items: Items, capacity: int, item: Item)
    ensures var err, t := Refused(items, capacity, item), Added(items, capacity, item);
            && (err == Some(UnknownItem) <==> |item.id| == 0)
            && (err == Some(WindowFull) <==> |item.id| > 0 && item.id !in Ids(items) && capacity <= |items|)
            && (err == None ==> item.id in Ids(t) && t == if item.id in Ids(items) then items else items + [item])
            && (err.Some? ==> t == items)
  {
    DistinctOneMore(items, item);
  }

  /** Each accepted item is waiting, flushed or removed, and only once; the window stays within capacity. */
  ghost predicate Accounted(s: Setup, r: Run) {
    && DistinctItems(r.items)
    && multiset(r.accepted) == multiset(r.items) + multiset(r.flushed) + multiset(r.removed)
    && (|r.items| <= s.capacity || r.items == [])
  }

  lemma FlushAccounts(s: Setup, r: Run, p: Item -> bool, now: Time)
    requires Accounted(s, r)
    ensures Accounted(s, r.(items := Left(r.items, s, p, now), flushed := r.flushed + FlushedBy(r.items, s, p, now)))
  {
    KeepAndDrop(r.items, p);
    DistinctAfter(r.items, Not(p));
    KeepShrinks(r.items, Not(p));
  }

  lemma AddAccounts(s: Setup, r: Run, item: Item)
    requires Accounted(s, r)
    ensures Accounted(s, Exec(s, r, Add(item)))
  {
    DistinctOneMore(r.items, item);
    assert r.accepted + [] == r.accepted;
  }

  lemma RemoveAccounts(s: Setup, r: Run, id: string)
    requires Accounted(s, r)
    ensures Accounted(s, Exec(s, r, Remove(id)))
  {
    KeepAndDrop(r.items, IdIn({id}));
    DistinctAfter(r.items, Not(IdIn({id})));
    KeepShrinks(r.items, Not(IdIn({id})));
  }

  lemma ExecAccounts(s: Setup, r: Run, a: Action)
    requires Accounted(s, r)
    ensures Accounted(s, Exec(s, r, a))
  {
    match a
    case Add(item) => AddAccounts(s, r, item);
    case Remove(id) => RemoveAccounts(s, r, id);
    case Flush(now) => FlushAccounts(s, r, Anywhere(), now);
    case FlushFor(endpoint, now) => FlushAccounts(s, r, To(endpoint), now);
  }

  lemma {:induction false} AlwaysAccounted(s: Setup, actions: seq<Action>)
    ensures Accounted(s, After(s, actions))
  {
    if actions != [] {
      AlwaysAccounted(s, actions[..|actions| - 1]);
      ExecAccounts(s, After(s, actions[..|actions| - 1]), actions[|actions| - 1]);
    }
  }
}
