/** The dead-letter ledger and the reaper that empties it. */
module DeadLetters {
  import opened Core
  import opened Lists
  import opened Retention

  lemma InOrder(order: seq<string>, n: nat, p: string -> bool)
    requires n < |order|
    ensures order[n] in Elements(order)
    ensures Keep(order[..n + 1], p) == Keep(order[..n], p) + if p(order[n]) then [order[n]] else []
  {
    assert order[..n + 1] == order[..n] + [order[n]];
    KeepOneMore(order[..n], order[n], p);
  }

  /** Moves what is not in `gone` to the front of `a[lo..hi]`, in order, within the same array. */
  method Compact(a: array<string>, lo: nat, hi: nat, gone: set<string>, ghost ids: seq<string>) returns (top: nat)
    requires lo <= hi <= a.Length
    requires gone == Elements(ids)
    modifies a
    ensures lo <= top <= hi
    ensures a[lo..top] == Drop(old(a[lo..hi]), Among(ids))
  {
    top := lo;
    ghost var was, stays := a[lo..hi], Not(Among(ids));
    for i := lo to hi
      invariant lo <= top <= i
      invariant forall j | i <= j < hi :: a[j] == was[j - lo]
      invariant a[lo..top] == Keep(was[..i - lo], stays)
    {
      InOrder(was, i - lo, stays);
      if a[i] !in gone {
        a[top] := a[i];
        top := top + 1;
      }
    }
    assert was[..hi - lo] == was;
  }

  class Ledger {
    const policy: Policy
    var entries: map<string, DeadLetter>
    /** The order is the slice `buffer[lo..hi]`. */
    var buffer: array<string>
    var lo: nat
    var hi: nat
    var purged: seq<string>

    ghost predicate Bounded()
      reads this
    {
      lo <= hi <= buffer.Length
    }

    ghost function View(): Books
      requires Bounded()
      reads this, buffer
    {
      Books(entries, buffer[lo..hi], purged)
    }

    ghost predicate Valid()
      reads this, buffer
    {
      Bounded() && Sound(View())
    }

    constructor (policy: Policy)
      ensures Valid() && fresh(buffer) && this.policy == policy && View() == Books(map[], [], [])
    {
      this.policy := policy;
      entries, lo, hi, purged := map[], 0, 0, [];
      buffer := new string[0];
    }

    /** Appends to the order, growing the buffer when it has no room. */
    method Append(id: string)
      requires Bounded()
      modifies this`buffer, this`lo, this`hi, buffer
      ensures Bounded() && (buffer == old(buffer) || fresh(buffer))
      ensures buffer[lo..hi] == old(buffer[lo..hi]) + [id]
    {
      if hi == buffer.Length {
        Grow();
      }
      buffer[hi] := id;
      hi := hi + 1;
    }

    method Grow()
      requires Bounded()
      modifies this`buffer, this`lo, this`hi
      ensures Bounded() && fresh(buffer) && hi < buffer.Length
      ensures buffer[lo..hi] == old(buffer[lo..hi])
    {
      var n: nat := hi - lo;
      var larger := new string[2 * n + 1];
      forall i | 0 <= i < n {
        larger[i] := buffer[lo + i];
      }
      buffer, lo, hi := larger, 0, n;
    }

    method TrackDead(id: string, reason: string, now: Time) returns (refusal: Option<Refusal>)
      requires Bounded()
      modifies this, buffer
      ensures Bounded() && (buffer == old(buffer) || fresh(buffer))
      ensures refusal == Refused(old(View()), id)
      ensures View() == Tracked(old(View()), id, reason, now)
    {
      if id == "" {
        return Some(UnknownEntry);
      }
      if id in entries {
        return Some(AlreadyTracked);
      }
      entries := entries[id := DeadLetter(id, reason, now, false)];
      Append(id);
      return None;
    }

    method Expire(now: Time) returns (expired: seq<string>)
      requires Bounded() && Elements(View().order) <= entries.Keys
      ensures expired == Expired(policy, View(), now)
    {
      expired := [];
      ghost var order, stale := buffer[lo..hi], TooOld(policy, View(), now);
      for i := lo to hi
        invariant expired == Keep(order[..i - lo], stale)
      {
        InOrder(order, i - lo, stale);
        if !policy.Retained(entries[buffer[i]].recordedAt, now) {
          expired := expired + [buffer[i]];
        }
      }
      assert order[..hi - lo] == order;
    }

    /** Records each of `gone` as purged, then compacts the order in place. */
    method Discard(gone: seq<string>)
      requires Bounded()
      modifies this, buffer
      ensures Bounded() && buffer == old(buffer)
      ensures View() == Without(old(View()), gone)
    {
      ghost var b := View();
      var marked := {};
      for i := 0 to |gone|
        invariant buffer == old(buffer) && lo == old(lo) && hi == old(hi) && buffer[lo..hi] == b.order
        invariant entries == b.entries - Elements(gone[..i])
        invariant marked == Elements(gone[..i])
        invariant purged == b.purged + gone[..i]
      {
        assert gone[..i + 1] == gone[..i] + [gone[i]];
        entries := entries - {gone[i]};
        purged := purged + [gone[i]];
        marked := marked + {gone[i]};
      }
      assert gone[..|gone|] == gone;
      hi := Compact(buffer, lo, hi, marked, gone);
    }

    method PurgeExpired(now: Time) returns (expired: seq<string>)
      requires Valid()
      modifies this, buffer
      ensures Valid() && buffer == old(buffer)
      ensures expired == Expired(policy, old(View()), now)
      ensures View() == AfterExpiry(policy, old(View()), now)
    {
      ghost var b := View();
      expired := Expire(now);
      Discard(expired);
      WithoutSound(b, expired);
    }

    method DropOldest() returns (id: string)
      requires Bounded() && View().order != []
      modifies this`entries, this`lo, this`purged
      ensures Bounded() && id == old(View().order[0]) && View() == Front(old(View()))
    {
      id := buffer[lo];
      lo := lo + 1;
      purged := purged + [id];
      entries := entries - {id};
    }

    method PurgeOverCapacity() returns (evicted: seq<string>)
      requires Valid()
      modifies this
      ensures Valid() && buffer == old(buffer)
      ensures evicted == Oldest(policy, old(View()))
      ensures View() == Without(old(View()), Oldest(policy, old(View())))
    {
      ghost var b := View();
      CutSizes(b);
      evicted := EvictExcess();
      EvictionEnds(policy, b, |evicted|);
    }

    /** Drops the oldest entry for as long as there are too many. */
    method EvictExcess() returns (evicted: seq<string>)
      requires Bounded() && Shrinking(View())
      modifies this`entries, this`lo, this`purged
      ensures Bounded() && |evicted| <= Excess(policy, |old(View()).order|)
      ensures evicted == old(View()).order[..|evicted|] && View() == Cut(old(View()), |evicted|)
      ensures !policy.OverCapacity(|old(View()).order| - |evicted|)
    {
      ghost var b := View();
      evicted := [];
      CutSize(b, 0);
      while policy.OverCapacity(|entries|)
        invariant Bounded() && buffer == old(buffer) && |evicted| <= Excess(policy, |b.order|)
        invariant evicted == b.order[..|evicted|] && View() == Cut(b, |evicted|)
        invariant |entries| == |b.order| - |evicted|
        decreases |entries|
      {
        var id := EvictOne(b, |evicted|);
        evicted := evicted + [id];
      }
    }

    method EvictOne(ghost b: Books, ghost n: nat) returns (id: string)
      requires Bounded() && Shrinking(b) && n < |b.order| && View() == Cut(b, n)
      modifies this`entries, this`lo, this`purged
      ensures Bounded() && View() == Cut(b, n + 1)
      ensures |entries| == |b.order| - (n + 1) && b.order[..n + 1] == b.order[..n] + [id]
    {
      CutSize(b, n + 1);
      NextCut(b, n);
      id := DropOldest();
    }
  }

  /** Every entry that goes takes one entry with it. */
  ghost predicate Shrinking(b: Books) {
    forall n: nat | n <= |b.order| :: |Cut(b, n).entries| == |b.order| - n
  }

  ghost function Front(b: Books): Books
    requires b.order != []
  {
    Books(b.entries - {b.order[0]}, b.order[1..], b.purged + [b.order[0]])
  }

  /** The books after the `n` oldest entries went, one by one. */
  ghost function Cut(b: Books, n: nat): (c: Books)
    requires n <= |b.order|
    ensures |c.order| == |b.order| - n
  {
    if n == 0 then b else Front(Cut(b, n - 1))
  }

  lemma OneMore(order: seq<string>, n: nat)
    requires n < |order|
    ensures Elements(order[..n + 1]) == Elements(order[..n]) + {order[n]}
    ensures order[..n + 1] == order[..n] + [order[n]]
    ensures order[n..][0] == order[n] && order[n..][1..] == order[n + 1..]
  {
    assert order[..n + 1] == order[..n] + [order[n]];
  }

  lemma {:induction false} CutIsWithout(b: Books, n: nat)
    requires n <= |b.order|
    ensures Cut(b, n).order == b.order[n..]
    ensures Cut(b, n).entries == b.entries - Elements(b.order[..n])
    ensures Cut(b, n).purged == b.purged + b.order[..n]
  {
    if n == 0 {
      assert Elements(b.order[..0]) == {};
    } else {
      CutIsWithout(b, n - 1);
      OneMore(b.order, n - 1);
    }
  }

  /** One by one, the oldest entries go as they would at once. */
  lemma CutIsEviction(b: Books, n: nat)
    requires Sound(b) && n <= |b.order|
    ensures Cut(b, n) == Without(b, b.order[..n])
  {
    CutIsWithout(b, n);
    DropOfPrefix(b.order, n);
  }

  lemma CutIsSound(b: Books, n: nat)
    requires Sound(b) && n <= |b.order|
    ensures Sound(Cut(b, n))
  {
    CutIsEviction(b, n);
    WithoutSound(b, b.order[..n]);
  }

  lemma CutSize(b: Books, n: nat)
    requires Shrinking(b) && n <= |b.order|
    ensures |Cut(b, n).entries| == |b.order| - n
  {
  }

  lemma CutSizes(b: Books)
    requires Sound(b)
    ensures Shrinking(b)
  {
    forall n: nat | n <= |b.order| ensures |Cut(b, n).entries| == |b.order| - n {
      CutIsSound(b, n);
      SizeOfSound(Cut(b, n));
    }
  }

  /** The eviction stops where it should. */
  lemma EvictionEnds(p: Policy, b: Books, n: nat)
    requires Sound(b) && n <= Excess(p, |b.order|)
    requires !p.OverCapacity(|b.order| - n)
    ensures Oldest(p, b) == b.order[..n]
    ensures Cut(b, n) == Without(b, Oldest(p, b))
    ensures Sound(Cut(b, n))
  {
    CutIsSound(b, n);
    CutIsEviction(b, n);
  }

  lemma NextCut(b: Books, n: nat)
    requires n < |b.order|
    ensures b.order[..n + 1] == b.order[..n] + [Cut(b, n).order[0]]
  {
    CutIsWithout(b, n);
  }

  method SortStrings(xs: seq<string>) returns (ys: seq<string>)
    ensures Sorted(ys, StringLe) && multiset(ys) == multiset(xs)
  {
    StringLeOrders();
    SortSorts(xs, StringLe);
    ys := Sort(xs, StringLe);
  }

  class Reaper {
    const ledger: Ledger
    var lastRun: Option<Time>

    constructor (ledger: Ledger)
      ensures this.ledger == ledger && lastRun == None
    {
      this.ledger := ledger;
      lastRun := None;
    }

    /** The ids returned are exactly those the pass removed, in the order of strings. */
    method Run(now: Time) returns (removed: seq<string>)
      requires ledger.Valid()
      modifies this, ledger, ledger.buffer
      ensures ledger.Valid() && ledger.buffer == old(ledger.buffer) && lastRun == Some(now)
      ensures ledger.View() == Reaped(ledger.policy, old(ledger.View()), now)
      ensures Sorted(removed, StringLe)
      ensures multiset(removed) == multiset(Removed(ledger.policy, old(ledger.View()), now))
    {
      removed := ledger.PurgeExpired(now);
      var over := ledger.PurgeOverCapacity();
      removed := SortStrings(removed + over);
      lastRun := Some(now);
    }
  }
}
