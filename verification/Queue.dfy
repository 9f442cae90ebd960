/** The retry schedule as its callers see it: a bounded map from delivery id to ready time. */
module Schedule {
  import opened Core

  type Ready = map<string, Time>

  predicate Full(q: Ready, capacity: int) {
    |q| >= capacity
  }

  /** `Schedule(id, ready)`: a queued id is moved, a new one needs a free slot. */
  function Scheduled(q: Ready, capacity: int, id: string, ready: Time): Result<Ready> {
    if id in q then Ok(q[id := ready])
    else if Full(q, capacity) then Err(QueueFull)
    else Ok(q[id := ready])
  }

  function Updated(q: Ready, r: Result<Ready>): Ready {
    if r.Ok? then r.value else q
  }

  /** `id` may be popped at `now`: it is due and nothing is ready before it. */
  predicate IsNext(q: Ready, now: Time, id: string) {
    id in q && q[id] <= now && forall other | other in q :: q[id] <= q[other]
  }

  function Due(q: Ready, now: Time): set<string> {
    set id | id in q && q[id] <= now
  }

  lemma SomeNextIfDue(q: Ready, now: Time) returns (id: string)
    requires Due(q, now) != {}
    ensures IsNext(q, now, id)
  {
    id :| id in Due(q, now);
    var rest := q.Keys - {id};
    while rest != {}
      invariant id in q && q[id] <= now && rest <= q.Keys
      invariant forall other | other in q && other !in rest :: q[id] <= q[other]
      decreases rest
    {
      var other :| other in rest;
      if q[other] < q[id] {
        id := other;
      }
      rest := rest - {other};
    }
  }

  // ---------- Draining: PopReady(now) until it reports nothing ----------

  /** `popped` is what successive calls of PopReady(now) may return before one of them fails. */
  ghost predicate Drains(q: Ready, now: Time, popped: seq<string>)
    decreases |popped|
  {
    if popped == [] then forall id | id in q :: q[id] > now
    else IsNext(q, now, popped[0]) && Drains(q - {popped[0]}, now, popped[1..])
  }

  /** A drain returns every due id once, in ready order, and as many as ReadyCount counts. */
  lemma {:induction false} DrainReturnsDueInOrder(q: Ready, now: Time, popped: seq<string>)
    requires Drains(q, now, popped)
    ensures forall id :: id in popped <==> id in Due(q, now)
    ensures forall i | 0 <= i < |popped| :: popped[i] in q
    ensures forall i, j | 0 <= i < j < |popped| :: popped[i] != popped[j] && q[popped[i]] <= q[popped[j]]
    ensures |popped| == |Due(q, now)|
    decreases |popped|
  {
    if popped == [] {
      assert Due(q, now) == {};
    } else {
      var id, rest := popped[0], popped[1..];
      DrainReturnsDueInOrder(q - {id}, now, rest);
      assert Due(q - {id}, now) == Due(q, now) - {id};
      assert popped == [id] + rest;
      forall i, j | 0 <= i < j < |popped|
        ensures popped[i] in q && popped[j] in q && popped[i] != popped[j] && q[popped[i]] <= q[popped[j]]
      {
        assert popped[j] == rest[j - 1];
        if i > 0 { assert popped[i] == rest[i - 1]; }
      }
    }
  }

  /** A drain always ends: from every queue there is one. */
  lemma {:induction false} DrainExists(q: Ready, now: Time) returns (popped: seq<string>)
    ensures Drains(q, now, popped)
    decreases |q|
  {
    if Due(q, now) == {} {
      forall id | id in q ensures q[id] > now { assert id !in Due(q, now); }
      popped := [];
    } else {
      var id := SomeNextIfDue(q, now);
      assert (q - {id}).Keys == q.Keys - {id};
      assert |q - {id}| < |q|;
      var rest := DrainExists(q - {id}, now);
      popped := [id] + rest;
      assert popped[1..] == rest;
    }
  }
}

/** Heap order on the ready times alone. Only the first `n` positions belong to the heap. */
module HeapOrder {
  import opened Core

  function Parent(k: nat): nat
    requires k > 0
  {
    (k - 1) / 2
  }

  /** Position `k` is not ready before its parent. */
  predicate Below(ts: seq<Time>, k: nat)
    requires 0 < k < |ts|
  {
    ts[Parent(k)] <= ts[k]
  }

  predicate Ordered(ts: seq<Time>, n: nat)
    requires n <= |ts|
  {
    forall k: nat | 0 < k < n :: Below(ts, k)
  }

  /** Ordered, except perhaps between `hole` and its parent and between `hole` and its children;
      the children still follow the parent. */
  predicate OrderedAround(ts: seq<Time>, n: nat, hole: nat)
    requires hole < n <= |ts|
  {
    && (forall k: nat | 0 < k < n && k != hole && Parent(k) != hole :: Below(ts, k))
    && (hole > 0 ==> forall k: nat | 0 < k < n && Parent(k) == hole :: ts[Parent(hole)] <= ts[k])
  }

  predicate AboveChildren(ts: seq<Time>, n: nat, hole: nat)
    requires n <= |ts|
  {
    forall k: nat | 0 < k < n && Parent(k) == hole :: Below(ts, k)
  }

  predicate BelowParent(ts: seq<Time>, hole: nat)
    requires hole < |ts|
  {
    hole > 0 ==> Below(ts, hole)
  }

  function Swapped<T>(s: seq<T>, i: nat, j: nat): seq<T>
    requires i < |s| && j < |s|
  {
    s[i := s[j]][j := s[i]]
  }

  lemma {:induction false} RootIsLeast(ts: seq<Time>, k: nat)
    requires k < |ts| && Ordered(ts, |ts|)
    ensures ts[0] <= ts[k]
  {
    if k > 0 {
      assert Below(ts, k);
      RootIsLeast(ts, Parent(k));
    }
  }

  /** In an ordered heap any one time may be overwritten. */
  lemma HoleOpens(ts: seq<Time>, n: nat, hole: nat, t: Time)
    requires hole < n <= |ts| && Ordered(ts, n)
    ensures OrderedAround(ts[hole := t], n, hole)
  {
    var us := ts[hole := t];
    forall k: nat | 0 < k < n && k != hole && Parent(k) != hole ensures Below(us, k) {
      assert Below(ts, k);
    }
    forall k: nat | hole > 0 && 0 < k < n && Parent(k) == hole ensures us[Parent(hole)] <= us[k] {
      assert Below(ts, hole) && Below(ts, k);
    }
  }

  lemma HoleAtEnd(ts: seq<Time>, t: Time)
    requires Ordered(ts, |ts|)
    ensures OrderedAround(ts + [t], |ts| + 1, |ts|) && AboveChildren(ts + [t], |ts| + 1, |ts|)
  {
    var us := ts + [t];
    forall k: nat | 0 < k < |ts| ensures Below(us, k) {
      assert Below(ts, k);
    }
  }

  lemma LastToRoot(ts: seq<Time>)
    requires |ts| > 1 && Ordered(ts, |ts|)
    ensures OrderedAround(Swapped(ts, 0, |ts| - 1), |ts| - 1, 0)
  {
    var us := Swapped(ts, 0, |ts| - 1);
    forall k: nat | 0 < k < |ts| - 1 && Parent(k) != 0 ensures Below(us, k) {
      assert Below(ts, k);
    }
  }

  lemma HoleCloses(ts: seq<Time>, n: nat, hole: nat)
    requires hole < n <= |ts| && OrderedAround(ts, n, hole) && AboveChildren(ts, n, hole) && BelowParent(ts, hole)
    ensures Ordered(ts, n)
  {
  }

  /** One turn of sift-up moves the hole to the parent. */
  lemma UpStep(ts: seq<Time>, n: nat, j: nat)
    requires 0 < j < n <= |ts| && OrderedAround(ts, n, j) && AboveChildren(ts, n, j) && ts[j] < ts[Parent(j)]
    ensures var i := Parent(j);
            var us := Swapped(ts, i, j);
            OrderedAround(us, n, i) && AboveChildren(us, n, i)
  {
    var i := Parent(j);
    var us := Swapped(ts, i, j);
    forall k: nat | 0 < k < n && k != i && Parent(k) != i ensures Below(us, k) {
      if Parent(k) != j { assert Below(ts, k); }
    }
    forall k: nat | 0 < k < n && Parent(k) == i ensures Below(us, k) {
      if k != j { assert Below(ts, k); }
    }
    if i > 0 {
      assert Below(ts, i);
      forall k: nat | 0 < k < n && Parent(k) == i ensures us[Parent(i)] <= us[k] {
        if k != j { assert Below(ts, k); }
      }
    }
  }

  /** The child that sift-down compares with its parent. */
  function LeastChild(ts: seq<Time>, n: nat, i: nat): (child: nat)
    requires 2 * i + 1 < n <= |ts|
    ensures i < child < n && Parent(child) == i
    ensures forall k: nat | 0 < k < n && Parent(k) == i :: ts[child] <= ts[k]
  {
    var left, right := 2 * i + 1, 2 * i + 2;
    assert forall k: nat | k > 0 && Parent(k) == i :: k == left || k == right;
    if right < n && ts[right] < ts[left] then right else left
  }

  /** One turn of sift-down moves the hole to its least child. */
  lemma DownStep(ts: seq<Time>, n: nat, i: nat)
    requires 2 * i + 1 < n <= |ts| && OrderedAround(ts, n, i) && ts[LeastChild(ts, n, i)] < ts[i]
    ensures var child := LeastChild(ts, n, i);
            var us := Swapped(ts, i, child);
            OrderedAround(us, n, child) && BelowParent(us, child)
  {
    var child := LeastChild(ts, n, i);
    var us := Swapped(ts, i, child);
    forall k: nat | 0 < k < n && k != child && Parent(k) != child ensures Below(us, k) {
      if k != i && Parent(k) != i { assert Below(ts, k); }
    }
    forall k: nat | 0 < k < n && Parent(k) == child ensures us[Parent(child)] <= us[k] {
      assert Below(ts, k);
    }
  }

  /** Sift-down may stop at `i` when no child is ready before it. */
  lemma DownStops(ts: seq<Time>, n: nat, i: nat)
    requires i < n <= |ts|
    requires 2 * i + 1 < n ==> ts[i] <= ts[LeastChild(ts, n, i)]
    ensures AboveChildren(ts, n, i)
  {
    forall k: nat | 0 < k < n && Parent(k) == i ensures Below(ts, k) {
      assert 2 * i + 1 < n;
    }
  }

  lemma PrefixOrdered(ts: seq<Time>, n: nat)
    requires n <= |ts| && Ordered(ts, n)
    ensures Ordered(ts[..n], n)
  {
    forall k: nat | 0 < k < n ensures Below(ts[..n], k) {
      assert Below(ts, k);
    }
  }
}

/** The indexed binary heap behind the schedule. */
module Queue {
  import opened Core
  import opened Schedule
  import opened HeapOrder

  class Item {
    const id: string
    var ready: Time
    var index: nat

    constructor (id: string, ready: Time)
      ensures this.id == id && this.ready == ready
    {
      this.id, this.ready, this.index := id, ready, 0;
    }
  }

  class Scheduler {
    const capacity: int
    var heap: seq<Item>
    var byID: map<string, Item>
    ghost var contents: Ready     // the schedule this heap stands for
    ghost var items: set<Item>    // the items in the heap
    ghost var times: seq<Time>    // their ready times, by position

    /** Every item knows its position in the heap, and every position holds an item. */
    ghost predicate Placed()
      reads this, items
    {
      && |times| == |heap|
      && (forall i | 0 <= i < |heap| :: heap[i] in items && heap[i].index == i && heap[i].ready == times[i])
      && (forall x | x in items :: x.index < |heap| && heap[x.index] == x)
    }

    /** `byID` finds exactly the items in the heap, and the schedule is what they say. */
    ghost predicate Named()
      reads `byID, `contents, `items, items`ready
    {
      && contents.Keys == byID.Keys
      && (forall x | x in items :: x.id in byID && byID[x.id] == x)
      && (forall id | id in byID :: byID[id].id == id && byID[id] in items && contents[id] == byID[id].ready)
    }

    ghost predicate Sound()
      reads this, items
    {
      Placed() && Ordered(times, |times|) && Named() && (|heap| <= capacity || heap == [])
    }

    /** `Sound`, behind a recursion that only `Unsealed` opens: what holds the heap together
        stays out of the proofs of those who merely use it. */
    ghost predicate Sealed(n: nat)
      reads this, items
    {
      if n == 0 then Sound() else Sealed(n - 1)
    }

    lemma {:induction false} Unsealed(n: nat)
      ensures Sealed(n) <==> Sound()
    {
      if n > 0 {
        Unsealed(n - 1);
      }
    }

    ghost predicate Valid()
      reads this, items
    {
      Sealed(|heap|)
    }

    constructor (capacity: int)
      ensures Valid() && contents == map[] && this.capacity == capacity && items == {}
    {
      this.capacity := capacity;
      heap, byID, contents, items, times := [], map[], map[], {}, [];
      new;
      Unsealed(0);
    }

    /** The heap holds as many items as the schedule has ids. */
    lemma SizeIsLength()
      requires Sound()
      ensures |contents| == |heap|
    {
      DistinctIds(heap, byID);
      assert (set x | x in heap :: x.id) == byID.Keys by {
        forall id | id in byID ensures id in set x | x in heap :: x.id {
          assert heap[byID[id].index] == byID[id];
        }
      }
      assert |contents| == |contents.Keys|;
    }

    // ---------- container/heap over this Less, Swap, Push and Pop ----------

    method Swap(i: nat, j: nat)
      requires i < |heap| && j < |heap| && Placed()
      modifies this`heap, this`times, items`index
      ensures heap == Swapped(old(heap), i, j) && times == Swapped(old(times), i, j)
      ensures Placed()
    {
      heap := heap[i := heap[j]][j := heap[i]];
      heap[i].index := i;
      heap[j].index := j;
      times := Swapped(times, i, j);
    }

    method Up(start: nat)
      requires start < |heap| && Placed()
      requires OrderedAround(times, |times|, start) && AboveChildren(times, |times|, start)
      modifies this`heap, this`times, items`index
      ensures Placed() && Ordered(times, |times|) && |heap| == old(|heap|)
    {
      var j: nat := start;
      while j > 0 && heap[j].ready < heap[Parent(j)].ready
        invariant j < |heap| == old(|heap|) && Placed()
        invariant OrderedAround(times, |times|, j) && AboveChildren(times, |times|, j)
      {
        UpStep(times, |times|, j);
        var i := Parent(j);
        Swap(i, j);
        j := i;
      }
      HoleCloses(times, |times|, j);
    }

    method LesserChild(i: nat, n: nat) returns (child: nat)
      requires 2 * i + 1 < n <= |heap| && Placed()
      ensures child == LeastChild(times, n, i)
    {
      var left := 2 * i + 1;
      child := left;
      var right := left + 1;
      if right < n && heap[right].ready < heap[left].ready {
        child := right;
      }
    }

    /** One turn of sift-down: where the hole goes, or `i` again when it is in place. */
    method DownOnce(i: nat, n: nat) returns (next: nat)
      requires i < n <= |heap| && Placed() && OrderedAround(times, n, i)
      modifies this`heap, this`times, items`index
      ensures Placed() && |heap| == old(|heap|) && i <= next < n
      ensures heap[n..] == old(heap[n..]) && OrderedAround(times, n, next)
      ensures next == i ==> heap == old(heap) && times == old(times) && AboveChildren(times, n, i)
      ensures next != i ==> BelowParent(times, next)
    {
      var left := 2 * i + 1;
      if left >= n {
        DownStops(times, n, i);
        return i;
      }
      var child := LesserChild(i, n);
      if !(heap[child].ready < heap[i].ready) {
        DownStops(times, n, i);
        return i;
      }
      SwapDown(i, n, child);
      return child;
    }

    method SwapDown(i: nat, n: nat, child: nat)
      requires 2 * i + 1 < n <= |heap| && Placed() && OrderedAround(times, n, i)
      requires child == LeastChild(times, n, i) && times[child] < times[i]
      modifies this`heap, this`times, items`index
      ensures Placed() && |heap| == old(|heap|) && heap[n..] == old(heap[n..])
      ensures OrderedAround(times, n, child) && BelowParent(times, child)
    {
      DownStep(times, n, i);
      Swap(i, child);
    }

    /** Sifts down within the first `n` items. */
    method Down(start: nat, n: nat) returns (moved: bool)
      requires start < n <= |heap| && Placed() && OrderedAround(times, n, start)
      modifies this`heap, this`times, items`index
      ensures Placed() && |heap| == old(|heap|)
      ensures heap[n..] == old(heap[n..])
      ensures moved ==> Ordered(times, n)
      ensures !moved ==> heap == old(heap) && times == old(times) && AboveChildren(times, n, start)
    {
      var i := start;
      var next := DownOnce(i, n);
      while next != i
        invariant start <= i <= next < n <= |heap| == old(|heap|) && Placed()
        invariant heap[n..] == old(heap[n..]) && OrderedAround(times, n, next)
        invariant next == i ==> AboveChildren(times, n, i)
        invariant next > start ==> BelowParent(times, next)
        invariant next == start ==> heap == old(heap) && times == old(times)
        decreases n - i
      {
        i := next;
        next := DownOnce(i, n);
      }
      moved := i > start;
      if moved {
        HoleCloses(times, n, i);
      }
    }

    method Fix(i: nat)
      requires i < |heap| && Placed() && OrderedAround(times, |times|, i)
      modifies this`heap, this`times, items`index
      ensures Placed() && Ordered(times, |times|) && |heap| == old(|heap|)
    {
      var moved := Down(i, |heap|);
      if !moved {
        Up(i);
      }
    }

    method Push(entry: Item)
      requires Placed() && Ordered(times, |times|) && entry !in items
      modifies this`heap, this`times, this`items, items`index, entry`index
      ensures Placed() && Ordered(times, |times|)
      ensures items == old(items) + {entry} && |heap| == old(|heap|) + 1
    {
      HoleAtEnd(times, entry.ready);
      entry.index := |heap|;
      heap, times, items := heap + [entry], times + [entry.ready], items + {entry};
      Up(|heap| - 1);
    }

    method Pop() returns (entry: Item)
      requires heap != [] && Placed() && Ordered(times, |times|)
      modifies this`heap, this`times, this`items, items`index
      ensures Placed() && Ordered(times, |times|)
      ensures entry == old(heap[0]) && items == old(items) - {entry} && |heap| == old(|heap|) - 1
    {
      var n := |heap| - 1;
      if n > 0 {
        LastToRoot(times);
      }
      Swap(0, n);
      if n > 0 {
        var moved := Down(0, n);
        if !moved {
          HoleCloses(times, n, 0);
        }
      }
      PrefixOrdered(times, n);
      assert heap[n] == heap[n..][0];
      entry := heap[n];
      heap, times, items := heap[..n], times[..n], items - {entry};
    }

    // ---------- The scheduler's own operations ----------

    method Schedule(id: string, ready: Time) returns (err: Option<Error>)
      requires Valid()
      modifies this, items
      ensures Valid() && fresh(items - old(items))
      ensures var r := Scheduled(old(contents), capacity, id, ready);
              contents == Updated(old(contents), r) && err == (if r.Ok? then None else Some(r.error))
    {
      Unsealed(|heap|);
      SizeIsLength();
      if id in byID {
        var existing := byID[id];
        Touch(existing, ready);
        Fix(existing.index);
        Unsealed(|heap|);
        return None;
      }
      if |heap| >= capacity {
        return Some(QueueFull);
      }
      Insert(id, ready);
      Unsealed(|heap|);
      return None;
    }

    /** Queues an id that is not queued yet. */
    method Insert(id: string, ready: Time)
      requires Sound() && id !in contents && |heap| < capacity
      modifies this, items
      ensures Sound() && fresh(items - old(items)) && contents == old(contents)[id := ready]
    {
      var entry := new Item(id, ready);
      Push(entry);
      assert forall x | x in old(items) :: x.ready == old(x.ready);
      byID := byID[id := entry];
      contents := contents[id := ready];
      assert Named();
    }

    /** Gives a queued item another ready time, which may put it out of order. */
    method Touch(existing: Item, ready: Time)
      requires Sound() && existing in items
      modifies `times, `contents, existing`ready
      ensures Placed() && Named() && existing.index < |times| && OrderedAround(times, |times|, existing.index)
      ensures contents == old(contents)[existing.id := ready]
    {
      HoleOpens(times, |times|, existing.index, ready);
      existing.ready := ready;
      times := times[existing.index := ready];
      contents := contents[existing.id := ready];
    }

    method PopReady(now: Time) returns (popped: Option<string>)
      requires Valid()
      modifies this, items
      ensures Valid() && items <= old(items)
      ensures popped == old(Head(now))
      ensures popped.None? ==> contents == old(contents) && forall id | id in contents :: contents[id] > now
      ensures popped.Some? ==> IsNext(old(contents), now, popped.value) && contents == old(contents) - {popped.value}
    {
      Unsealed(|heap|);
      HeadIsLeast();
      if heap == [] || heap[0].ready > now {
        return None;
      }
      var entry := Pop();
      byID := byID - {entry.id};
      contents := contents - {entry.id};
      Unsealed(|heap|);
      return Some(entry.id);
    }

    /** The id at the root, if it is due. */
    function Head(now: Time): Option<string>
      reads this, heap
    {
      if heap == [] || heap[0].ready > now then None else Some(heap[0].id)
    }

    lemma HeadIsLeast()
      requires Sound()
      ensures heap == [] ==> contents == map[]
      ensures heap != [] ==> heap[0].id in contents && contents[heap[0].id] == heap[0].ready
      ensures forall id | id in contents :: heap != [] && heap[0].ready <= contents[id]
    {
      forall id | id in contents ensures heap != [] && heap[0].ready <= contents[id] {
        RootIsLeast(times, byID[id].index);
      }
    }

    /** The head is what may be popped: a least due id, or none when nothing is due. */
    lemma HeadOfContents(now: Time)
      requires Valid()
      ensures Head(now).None? ==> forall id | id in contents :: contents[id] > now
      ensures Head(now).Some? ==> IsNext(contents, now, Head(now).value)
    {
      Unsealed(|heap|);
      HeadIsLeast();
    }

    method Peek(now: Time) returns (next: Option<string>)
      requires Valid()
      ensures next == Head(now)
      ensures next.None? ==> forall id | id in contents :: contents[id] > now
      ensures next.Some? ==> IsNext(contents, now, next.value)
    {
      Unsealed(|heap|);
      HeadIsLeast();
      if heap == [] || heap[0].ready > now {
        return None;
      }
      return Some(heap[0].id);
    }

    method ReadyCount(now: Time) returns (count: nat)
      requires Valid()
      ensures count == |Due(contents, now)|
    {
      Unsealed(|heap|);
      count := 0;
      ghost var seen: set<string> := {};
      for i := 0 to |heap|
        invariant count == |seen|
        invariant forall id | id in seen :: id in Due(contents, now) && byID[id].index < i
        invariant forall k | 0 <= k < i && heap[k].ready <= now :: heap[k].id in seen
      {
        if !(heap[i].ready > now) {
          assert heap[i].id !in seen;
          count := count + 1;
          seen := seen + {heap[i].id};
        }
      }
      assert seen == Due(contents, now) by {
        forall id | id in Due(contents, now) ensures id in seen {
          assert heap[byID[id].index] == byID[id];
        }
      }
    }
  }

  lemma {:induction false} DistinctIds(heap: seq<Item>, byID: map<string, Item>)
    requires forall i | 0 <= i < |heap| :: heap[i].index == i && heap[i].id in byID && byID[heap[i].id] == heap[i]
    ensures |set x | x in heap :: x.id| == |heap|
  {
    if heap != [] {
      var front, back := heap[..|heap| - 1], heap[|heap| - 1];
      DistinctIds(front, byID);
      assert heap == front + [back];
      assert (set x | x in heap :: x.id) == (set x | x in front :: x.id) + {back.id};
      assert back.id !in set x | x in front :: x.id by {
        forall x | x in front ensures x.id != back.id {
          assert x.index < |front|;
        }
      }
    }
  }
}
