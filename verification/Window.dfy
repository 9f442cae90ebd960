/** The batch window and the flusher that drains it. */
module BatchWindow {
  import opened Core
  import opened Lists
  import opened Batches

  ghost predicate Listed(order: seq<string>, items: map<string, Item>, contents: Items) {
    && |order| == |contents|
    && forall i | 0 <= i < |order| :: contents[i].id == order[i] && order[i] in items && items[order[i]] == contents[i]
  }

  /** The order names the items, each once, and names all of them. */
  ghost predicate Agree(order: seq<string>, items: map<string, Item>, contents: Items) {
    Listed(order, items, contents) && DistinctItems(contents) && items.Keys == Ids(contents)
  }

  class Window {
    const capacity: int
    const interval: Duration
    const windowAt: Time
    var items: map<string, Item>
    var order: seq<string>
    ghost var contents: Items

    ghost predicate Valid()
      reads this
    {
      Agree(order, items, contents)
    }

    constructor (capacity: int, interval: Duration, now: Time)
      ensures Valid() && contents == []
      ensures this.capacity == capacity && this.interval == interval && windowAt == now
    {
      this.capacity, this.interval, windowAt := capacity, interval, now;
      items, order, contents := map[], [], [];
    }

    method Add(item: Item) returns (err: Option<WindowError>)
      requires Valid()
      modifies this
      ensures Valid()
      ensures err == Refused(old(contents), capacity, item)
      ensures contents == Added(old(contents), capacity, item)
    {
      if item.id == "" {
        return Some(UnknownItem);
      }
      if item.id in items {
        return None;
      }
      if |items| >= capacity {
        return Some(WindowFull);
      }
      AgreeWith(order, items, contents, item);
      items := items[item.id := item];
      order := order + [item.id];
      contents := contents + [item];
      return None;
    }

    method Remove(id: string) returns (err: Option<WindowError>)
      requires Valid()
      modifies this
      ensures Valid()
      ensures err == if id in Ids(old(contents)) then None else Some(UnknownItem)
      ensures contents == Removed(old(contents), id)
    {
      if id !in items {
        RemovedAbsent(contents, id);
        return Some(UnknownItem);
      }
      var index := Find(id);
      RemoveAt(index);
      return None;
    }

    method RemoveAt(index: nat)
      requires Valid() && index < |order|
      modifies this
      ensures Valid() && contents == Removed(old(contents), old(order)[index])
    {
      AgreeWithout(order, items, contents, index);
      items := items - {order[index]};
      order := order[..index] + order[index + 1..];
      contents := contents[..index] + contents[index + 1..];
    }

    method Find(id: string) returns (index: nat)
      requires Valid() && id in items
      ensures index < |order| && order[index] == id
    {
      index := 0;
      while index < |order| && order[index] != id
        invariant index <= |order|
        invariant forall i | 0 <= i < index :: order[i] != id
      {
        index := index + 1;
      }
      ghost var item :| item in contents && item.id == id;
      ghost var i :| 0 <= i < |contents| && contents[i] == item;
      assert order[i] == id;
    }

    method IsReady(now: Time) returns (ready: bool)
      requires Valid()
      ensures ready == Ready(contents, interval, windowAt, now)
    {
      ready := |items| > 0 && now - windowAt >= interval;
    }

    method Snapshot() returns (all: Items)
      requires Valid()
      ensures all == contents
    {
      all := [];
      for i := 0 to |order|
        invariant all == contents[..i]
      {
        all := all + [items[order[i]]];
      }
    }

    /** Buckets by endpoint; only endpoints with items have one. */
    method GroupByEndpoint() returns (groups: map<string, Items>)
      requires Valid()
      ensures forall e :: Bucket(groups, e) == Keep(contents, To(e))
    {
      groups := map[];
      for i := 0 to |order|
        invariant forall e :: Bucket(groups, e) == Keep(contents[..i], To(e))
      {
        var item := items[order[i]];
        assert contents[..i + 1] == contents[..i] + [item];
        forall e ensures Keep(contents[..i + 1], To(e)) ==
                         Keep(contents[..i], To(e)) + if To(e)(item) then [item] else [] {
          KeepOneMore(contents[..i], item, To(e));
        }
        groups := groups[item.event.endpoint := Bucket(groups, item.event.endpoint) + [item]];
      }
      assert contents[..|order|] == contents;
    }
  }

  function Bucket(groups: map<string, Items>, endpoint: string): Items {
    if endpoint in groups then groups[endpoint] else []
  }

  lemma RemovedAbsent(items: Items, id: string)
    requires id !in Ids(items)
    ensures Removed(items, id) == items
  {
    KeepAll(items, Not(IdIn({id})));
  }

  lemma {:induction false} PositionsDiffer(items: Items, i: nat, j: nat)
    requires DistinctItems(items) && i < j < |items|
    ensures items[i].id != items[j].id
  {
    var front, last := items[..|items| - 1], items[|items| - 1];
    assert items == front + [last];
    DistinctOneMore(front, last);
    if j < |front| {
      PositionsDiffer(front, i, j);
    } else {
      assert front[i].id in Ids(front);
    }
  }

  lemma RemovedAt(items: Items, k: nat)
    requires DistinctItems(items) && k < |items|
    ensures items[..k] + items[k + 1..] == Removed(items, items[k].id)
  {
    var stays := Not(IdIn({items[k].id}));
    forall i | 0 <= i < |items| ensures stays(items[i]) <==> i != k {
      if i < k { PositionsDiffer(items, i, k); } else if i > k { PositionsDiffer(items, k, i); }
    }
    KeepOthers(items, stays, k);
  }

  lemma ListedWithout(order: seq<string>, items: map<string, Item>, contents: Items, k: nat)
    requires Listed(order, items, contents) && DistinctItems(contents) && k < |order|
    ensures Listed(order[..k] + order[k + 1..], items - {order[k]}, contents[..k] + contents[k + 1..])
  {
    var rest, left := order[..k] + order[k + 1..], contents[..k] + contents[k + 1..];
    forall i | 0 <= i < |rest|
      ensures left[i].id == rest[i] && rest[i] != order[k] && rest[i] in items && items[rest[i]] == left[i]
    {
      if i < k {
        PositionsDiffer(contents, i, k);
        assert rest[i] == order[i] && left[i] == contents[i];
      } else {
        PositionsDiffer(contents, k, i + 1);
        assert rest[i] == order[i + 1] && left[i] == contents[i + 1];
      }
    }
  }

  lemma RemovedIds(items: Items, id: string)
    requires DistinctItems(items)
    ensures DistinctItems(Removed(items, id)) && Ids(Removed(items, id)) == Ids(items) - {id}
  {
    DistinctAfter(items, Not(IdIn({id})));
    forall item ensures item in Removed(items, id) <==> item in items && item.id != id {
      KeepMembers(items, Not(IdIn({id})), item);
    }
  }

  lemma AgreeWithout(order: seq<string>, items: map<string, Item>, contents: Items, k: nat)
    requires Agree(order, items, contents) && k < |order|
    ensures Agree(order[..k] + order[k + 1..], items - {order[k]}, contents[..k] + contents[k + 1..])
    ensures contents[..k] + contents[k + 1..] == Removed(contents, order[k])
  {
    RemovedAt(contents, k);
    RemovedIds(contents, order[k]);
    ListedWithout(order, items, contents, k);
  }

  lemma ListedWith(order: seq<string>, items: map<string, Item>, contents: Items, item: Item)
    requires Listed(order, items, contents) && item.id !in items
    ensures Listed(order + [item.id], items[item.id := item], contents + [item])
  {
    var more, all := order + [item.id], contents + [item];
    forall i | 0 <= i < |more|
      ensures all[i].id == more[i] && more[i] in items[item.id := item] && items[item.id := item][more[i]] == all[i]
    {
      if i < |order| {
        assert all[i] == contents[i] && more[i] == order[i];
      }
    }
  }

  lemma AgreeWith(order: seq<string>, items: map<string, Item>, contents: Items, item: Item)
    requires Agree(order, items, contents) && item.id !in items
    ensures Agree(order + [item.id], items[item.id := item], contents + [item])
  {
    DistinctOneMore(contents, item);
    ListedWith(order, items, contents, item);
  }

  class Flusher {
    const window: Window

    constructor (window: Window)
      ensures this.window == window
    {
      this.window := window;
    }

    /** Takes each of `out` from the window. */
    method Drain(out: Items)
      requires window.Valid()
      modifies window
      ensures window.Valid() && window.contents == Drop(old(window.contents), IdIn(Ids(out)))
    {
      ghost var was := window.contents;
      KeepAll(was, Not(IdIn(Ids(out[..0]))));
      for i := 0 to |out|
        invariant window.Valid() && window.contents == Drop(was, IdIn(Ids(out[..i])))
      {
        RemovedNext(was, Ids(out[..i]), out[i].id);
        assert Ids(out[..i + 1]) == Ids(out[..i]) + {out[i].id};
        var err := window.Remove(out[i].id);
      }
      assert out[..|out|] == out;
    }

    method SortByAge(items: Items) returns (sorted: Items)
      ensures Sorted(sorted, AddedBy()) && multiset(sorted) == multiset(items)
    {
      SortSorts(items, AddedBy());
      sorted := Sort(items, AddedBy());
    }

    /** A window that is not ready gives nothing and keeps all. */
    method Flush(now: Time) returns (out: Items)
      requires window.Valid()
      modifies window
      ensures window.Valid()
      ensures var was, w := old(window.contents), window;
              if Ready(was, w.interval, w.windowAt, now)
              then Flushes(was, Anywhere(), out) && w.contents == []
              else out == [] && w.contents == was
    {
      var ready := window.IsReady(now);
      if !ready {
        return [];
      }
      var all := window.Snapshot();
      out := SortByAge(all);
      KeepAll(all, Anywhere());
      RemovingFlushed(all, Anywhere(), out);
      Drain(out);
      KeepNone(all, Not(Anywhere()));
    }

    method FlushFor(endpoint: string, now: Time) returns (out: Items)
      requires window.Valid()
      modifies window
      ensures window.Valid()
      ensures var was, w := old(window.contents), window;
              if Ready(was, w.interval, w.windowAt, now)
              then Flushes(was, To(endpoint), out) && w.contents == Drop(was, To(endpoint))
              else out == [] && w.contents == was
    {
      var ready := window.IsReady(now);
      if !ready {
        return [];
      }
      var groups := window.GroupByEndpoint();
      var items := Bucket(groups, endpoint);
      if |items| == 0 {
        DropNothing(window.contents, To(endpoint));
        return [];
      }
      out := SortByAge(items);
      RemovingFlushed(window.contents, To(endpoint), out);
      Drain(out);
    }
  }
}
