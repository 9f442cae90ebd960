/** The dead-letter ledger's books: live entries, the order they came in, and what was purged. */
module Retention {
  import opened Core
  import opened Lists

  datatype Policy = Policy(maxDead: int, retentionDays: int) {
    predicate Retained(recordedAt: Time, now: Time) {
      if retentionDays <= 0 then false else now - recordedAt < retentionDays * 24 * HOUR
    }

    predicate OverCapacity(count: int) {
      maxDead > 0 && count > maxDead
    }
  }

  datatype DeadLetter = DeadLetter(deliveryId: string, reason: string, recordedAt: Time, isPurged: bool)

  datatype Books = Books(entries: map<string, DeadLetter>, order: seq<string>, purged: seq<string>)

  datatype Refusal = UnknownEntry | AlreadyTracked

  function Elements<T(==)>(xs: seq<T>): set<T> {
    set x | x in xs
  }

  function Among(xs: seq<string>): string -> bool {
    id => id in xs
  }

  /** The order lists every live entry, once. */
  ghost predicate Sound(b: Books) {
    NoDuplicates(b.order) && Elements(b.order) == b.entries.Keys
  }

  function Refused(b: Books, id: string): Option<Refusal> {
    if id == "" then Some(UnknownEntry)
    else if id in b.entries then Some(AlreadyTracked)
    else None
  }

  function Tracked(b: Books, id: string, reason: string, now: Time): Books {
    if Refused(b, id).Some? then b
    else b.(entries := b.entries[id := DeadLetter(id, reason, now, false)], order := b.order + [id])
  }

  /** `gone` leaves the live entries and is appended to the purged ones. */
  function Without(b: Books, gone: seq<string>): Books {
    Books(b.entries - Elements(gone), Drop(b.order, Among(gone)), b.purged + gone)
  }

  function TooOld(p: Policy, b: Books, now: Time): string -> bool {
    id => id in b.entries && !p.Retained(b.entries[id].recordedAt, now)
  }

  function Expired(p: Policy, b: Books, now: Time): seq<string> {
    Keep(b.order, TooOld(p, b, now))
  }

  /** How many of the oldest entries must go for the ledger to fit its policy. */
  function Excess(p: Policy, count: nat): nat {
    if p.OverCapacity(count) then count - p.maxDead else 0
  }

  ghost function Oldest(p: Policy, b: Books): seq<string>
    requires Sound(b)
  {
    SizeOfSound(b);
    b.order[..Excess(p, |b.order|)]
  }

  /** One pass of the reaper: what is too old, then the oldest of what is too much. */
  ghost function AfterExpiry(p: Policy, b: Books, now: Time): (c: Books)
    requires Sound(b)
    ensures Sound(c)
  {
    ExpiredLive(p, b, now);
    WithoutSound(b, Expired(p, b, now));
    Without(b, Expired(p, b, now))
  }

  ghost function Reaped(p: Policy, b: Books, now: Time): (c: Books)
    requires Sound(b)
    ensures Sound(c)
  {
    var c := AfterExpiry(p, b, now);
    WithoutSound(c, Oldest(p, c));
    Without(c, Oldest(p, c))
  }

  /** What a pass of the reaper takes away. */
  ghost function Removed(p: Policy, b: Books, now: Time): seq<string>
    requires Sound(b)
  {
    Expired(p, b, now) + Oldest(p, AfterExpiry(p, b, now))
  }

  lemma WithoutTwice(b: Books, gone: seq<string>, over: seq<string>)
    ensures Without(Without(b, gone), over).purged == b.purged + (gone + over)
    ensures Without(Without(b, gone), over).entries == b.entries - Elements(gone + over)
  {
    assert Elements(gone + over) == Elements(gone) + Elements(over);
  }

  /** It is what the pass adds to the purged ids, and what it takes out of the live entries. */
  lemma RemovedIsPurged(p: Policy, b: Books, now: Time)
    requires Sound(b)
    ensures Reaped(p, b, now).purged == b.purged + Removed(p, b, now)
    ensures Reaped(p, b, now).entries == b.entries - Elements(Removed(p, b, now))
    ensures forall id | id in Removed(p, b, now) :: id in b.entries
  {
    WithoutTwice(b, Expired(p, b, now), Oldest(p, AfterExpiry(p, b, now)));
    forall id | id in Removed(p, b, now) ensures id in b.entries {
      RemovedWasLive(p, b, now, id);
    }
  }

  lemma RemovedWasLive(p: Policy, b: Books, now: Time, id: string)
    requires Sound(b) && id in Removed(p, b, now)
    ensures id in b.entries
  {
    ExpiredLive(p, b, now);
    var m := AfterExpiry(p, b, now);
    if id in Oldest(p, m) {
      assert id in Elements(m.order);
    }
  }

  lemma SizeOfSound(b: Books)
    requires Sound(b)
    ensures |b.entries| == |b.order|
  {
    SizeWithoutDuplicates(b.order);
    assert b.entries.Keys == set x | x in b.order;
  }

  lemma TrackedSound(b: Books, id: string, reason: string, now: Time)
    requires Sound(b)
    ensures Sound(Tracked(b, id, reason, now))
  {
    NoDuplicatesOneMore(b.order, id);
  }

  lemma ExpiredLive(p: Policy, b: Books, now: Time)
    requires Sound(b)
    ensures NoDuplicates(Expired(p, b, now))
    ensures forall id :: id in Expired(p, b, now) <==> id in b.entries && TooOld(p, b, now)(id)
  {
    KeepNoDuplicates(b.order, TooOld(p, b, now));
    forall id ensures id in Expired(p, b, now) <==> id in b.entries && TooOld(p, b, now)(id) {
      KeepMembers(b.order, TooOld(p, b, now), id);
    }
  }

  lemma WithoutMembers(b: Books, gone: seq<string>)
    requires Sound(b)
    ensures Elements(Without(b, gone).order) == Without(b, gone).entries.Keys
  {
    forall id ensures id in Without(b, gone).order <==> id in Elements(b.order) && id !in gone {
      KeepMembers(b.order, Not(Among(gone)), id);
    }
  }

  lemma WithoutSound(b: Books, gone: seq<string>)
    requires Sound(b)
    ensures Sound(Without(b, gone))
  {
    KeepNoDuplicates(b.order, Not(Among(gone)));
    WithoutMembers(b, gone);
  }

  // ---------- What a purge takes ----------

  /** Taking a prefix of a list without duplicates leaves the rest of it. */
  lemma DropOfPrefix(order: seq<string>, n: nat)
    requires NoDuplicates(order) && n <= |order|
    ensures Drop(order, Among(order[..n])) == order[n..]
  {
    forall i | 0 <= i < |order| ensures order[i] in order[..n] <==> i < n {
      if i < n {
        assert order[i] == order[..n][i];
      } else if order[i] in order[..n] {
        var j: nat :| j < n && order[..n][j] == order[i];
        DistinctPositions(order, j, i);
        assert false;
      }
    }
    KeepOfNewest(order, Not(Among(order[..n])), n);
  }

  /** Evicting takes the shortest run of oldest entries after which the ledger fits: fewer would not do. */
  lemma EvictionIsShortest(p: Policy, b: Books)
    requires Sound(b)
    ensures Oldest(p, b) <= b.order
    ensures Without(b, Oldest(p, b)).order == b.order[|Oldest(p, b)|..]
    ensures !p.OverCapacity(|Without(b, Oldest(p, b)).entries|)
    ensures forall i | 0 <= i < |Oldest(p, b)| :: p.OverCapacity(|b.order[i..]|)
  {
    var n := Excess(p, |b.order|);
    ExcessIsLeast(p, |b.order|, 0);
    assert Oldest(p, b) == b.order[..n];
    PrefixGone(b, n);
    forall i | 0 <= i < n ensures p.OverCapacity(|b.order[i..]|) {
      ExcessIsLeast(p, |b.order|, i);
      assert |b.order[i..]| == |b.order| - i;
    }
  }

  lemma ExcessIsLeast(p: Policy, count: nat, fewer: nat)
    ensures Excess(p, count) <= count && !p.OverCapacity(count - Excess(p, count))
    ensures fewer < Excess(p, count) ==> p.OverCapacity(count - fewer)
  {
  }

  lemma PrefixGone(b: Books, n: nat)
    requires Sound(b) && n <= |b.order|
    ensures Without(b, b.order[..n]).order == b.order[n..]
    ensures |Without(b, b.order[..n]).entries| == |b.order| - n
  {
    DropOfPrefix(b.order, n);
    WithoutSound(b, b.order[..n]);
    SizeOfSound(Without(b, b.order[..n]));
  }

  lemma ExpiryTakesTheStale(p: Policy, b: Books, now: Time)
    requires Sound(b)
    ensures var m := AfterExpiry(p, b, now).entries;
            && (forall id | id in m :: id in b.entries && m[id] == b.entries[id])
            && (forall id | id in b.entries :: id in m <==> p.Retained(b.entries[id].recordedAt, now))
  {
    ExpiredLive(p, b, now);
  }

  lemma EvictionStopsInTime(p: Policy, b: Books)
    requires Sound(b)
    ensures var c := Without(b, Oldest(p, b)).entries;
            && (forall id | id in c :: id in b.entries && c[id] == b.entries[id])
            && !p.OverCapacity(|c|)
            && (|c| == p.maxDead || forall id | id in b.entries :: id in c)
  {
    EvictionIsShortest(p, b);
    SizeOfSound(b);
    WithoutSound(b, Oldest(p, b));
    SizeOfSound(Without(b, Oldest(p, b)));
  }

  /** A pass keeps nothing too old, fits the policy, and removes a retained entry only to reach the maximum. */
  lemma ReapIsExact(p: Policy, b: Books, now: Time)
    requires Sound(b)
    ensures var c := Reaped(p, b, now).entries;
            && (forall id | id in c :: id in b.entries && c[id] == b.entries[id])
            && (forall id | id in c :: p.Retained(c[id].recordedAt, now))
            && !p.OverCapacity(|c|)
            && forall id | id in b.entries && id !in c && p.Retained(b.entries[id].recordedAt, now) :: |c| == p.maxDead
  {
    ExpiryTakesTheStale(p, b, now);
    EvictionStopsInTime(p, AfterExpiry(p, b, now));
  }

  const DAY: Duration := 86_400 * SECOND

  /** Expiry keeps an entry exactly for the policy's days after its recording. */
  lemma ExpiresAfterDays(p: Policy, b: Books, now: Time, id: string)
    requires Sound(b) && id in b.entries
    ensures id in AfterExpiry(p, b, now).entries <==>
            p.retentionDays > 0 && now < b.entries[id].recordedAt + p.retentionDays * DAY
  {
    ExpiryTakesTheStale(p, b, now);
    InDays(p, b.entries[id].recordedAt, now);
  }

  lemma InDays(p: Policy, recordedAt: Time, now: Time)
    ensures p.Retained(recordedAt, now) <==> p.retentionDays > 0 && now < recordedAt + p.retentionDays * DAY
  {
  }

  /** With no maximum a pass of the reaper takes what expires and nothing else. */
  lemma NothingEvicted(p: Policy, b: Books, now: Time)
    requires Sound(b) && p.maxDead <= 0
    ensures Reaped(p, b, now).entries == AfterExpiry(p, b, now).entries
  {
    NoExcess(p, AfterExpiry(p, b, now));
    WithoutNone(AfterExpiry(p, b, now));
  }

  lemma NoExcess(p: Policy, b: Books)
    requires Sound(b) && p.maxDead <= 0
    ensures Oldest(p, b) == []
  {
    SizeOfSound(b);
  }

  lemma WithoutNone(b: Books)
    ensures Without(b, []).entries == b.entries
  {
    assert Elements<string>([]) == {};
  }

  /** What tracking answers and records: the empty id is unknown, a live one is tracked already, and any other is
      recorded with its reason and time as the newest entry. */
  lemma TrackAnswersExactly(b: Books, id: string, reason: string, now: Time)
    ensures var refusal, c := Refused(b, id), Tracked(b, id, reason, now);
            && (refusal == Some(UnknownEntry) <==> |id| == 0)
            && (refusal == Some(AlreadyTracked) <==> |id| > 0 && id in b.entries)
            && (refusal.Some? ==> c == b)
            && (refusal.None? ==>
                  && Lookup(c.entries, id) == Some(DeadLetter(id, reason, now, false))
                  && (forall other | other != id :: Lookup(c.entries, other) == Lookup(b.entries, other))
                  && c.order == b.order + [id] && c.purged == b.purged)
  {
  }

  /** So a dead letter tracked at `at` is kept by a later pass exactly for its days. */
  lemma TrackedForDays(p: Policy, b: Books, id: string, reason: string, at: Time, now: Time)
    requires Sound(b) && |id| > 0 && id !in b.entries && p.maxDead <= 0
    ensures Sound(Tracked(b, id, reason, at))
    ensures id in Reaped(p, Tracked(b, id, reason, at), now).entries <==>
            p.retentionDays > 0 && now < at + p.retentionDays * DAY
  {
    TrackedSound(b, id, reason, at);
    ExpiresAfterDays(p, Tracked(b, id, reason, at), now, id);
    NothingEvicted(p, Tracked(b, id, reason, at), now);
  }

  function NoYounger(entries: map<string, DeadLetter>): (string, string) -> bool {
    (x, y) => x in entries && y in entries && entries[x].recordedAt <= entries[y].recordedAt
  }

  /** Entries are listed oldest first. */
  ghost predicate ByAge(b: Books) {
    Sorted(b.order, NoYounger(b.entries))
  }

  function Later(m: nat, n: nat): nat {
    if m > n then m else n
  }

  /** The books after cutting `n` entries off the front. */
  ghost predicate CutAt(b: Books, c: Books, n: nat) {
    n <= |b.order| && c.order == b.order[n..] && c.purged == b.purged + b.order[..n]
  }

  lemma ExpiryCutsTheFront(p: Policy, b: Books, now: Time)
    requires Sound(b) && ByAge(b)
    ensures CutAt(b, AfterExpiry(p, b, now), |Expired(p, b, now)|)
  {
    KeepOfOldest(b.order, TooOld(p, b, now));
    DropOfPrefix(b.order, |Expired(p, b, now)|);
  }

  lemma EvictionCutsTheFront(p: Policy, b: Books)
    requires Sound(b)
    ensures CutAt(b, Without(b, Oldest(p, b)), Excess(p, |b.order|))
  {
    SizeOfSound(b);
    EvictionIsShortest(p, b);
  }

  lemma CutsCompose(p: Policy, b: Books, m: Books, c: Books, n: nat)
    requires CutAt(b, m, n) && CutAt(m, c, Excess(p, |m.order|))
    ensures CutAt(b, c, Later(n, Excess(p, |b.order|)))
  {
    CutTwice(b.order, n, Excess(p, |m.order|));
  }

  /** Oldest first, a pass of the reaper is one cut at the front: at the first retained entry, or further
      back where the maximum says so. */
  lemma ReapCutsTheFront(p: Policy, b: Books, now: Time)
    requires Sound(b) && ByAge(b)
    ensures CutAt(b, Reaped(p, b, now), Later(|Expired(p, b, now)|, Excess(p, |b.order|)))
  {
    ExpiryCutsTheFront(p, b, now);
    var m := AfterExpiry(p, b, now);
    EvictionCutsTheFront(p, m);
    CutsCompose(p, b, m, Reaped(p, b, now), |Expired(p, b, now)|);
  }

  lemma CutTwice(order: seq<string>, m: nat, n: nat)
    requires m + n <= |order|
    ensures order[m..][n..] == order[m + n..]
    ensures order[..m] + order[m..][..n] == order[..m + n]
  {
  }

  // ---------- Runs ----------

  datatype Action =
    | Track(id: string, reason: string, at: Time)
    | Expire(at: Time)
    | Evict
    | Reap(at: Time)

  /** The books, with the ids accepted so far. */
  datatype Run = Run(books: Books, accepted: seq<string>)

  ghost function Exec(p: Policy, r: Run, a: Action): Run
    requires Sound(r.books)
  {
    var b := r.books;
    match a
    case Track(id, reason, at) =>
      Run(Tracked(b, id, reason, at), if Refused(b, id).None? then r.accepted + [id] else r.accepted)
    case Expire(at) => r.(books := AfterExpiry(p, b, at))
    case Evict =>
      WithoutSound(b, Oldest(p, b));
      r.(books := Without(b, Oldest(p, b)))
    case Reap(at) => r.(books := Reaped(p, b, at))
  }

  ghost function AfterRun(p: Policy, actions: seq<Action>): (r: Run)
    ensures Sound(r.books)
  {
    if actions == [] then Run(Books(map[], [], []), [])
    else
      var r := AfterRun(p, actions[..|actions| - 1]);
      ExecSound(p, r, actions[|actions| - 1]);
      Exec(p, r, actions[|actions| - 1])
  }

  lemma ExecSound(p: Policy, r: Run, a: Action)
    requires Sound(r.books)
    ensures Sound(Exec(p, r, a).books)
  {
    match a
    case Track(id, reason, at) => TrackedSound(r.books, id, reason, at);
    case Evict => WithoutSound(r.books, Oldest(p, r.books));
    case _ =>
  }

  /** No accepted entry is lost or counted twice: it is live or it is purged. */
  ghost predicate Conserved(r: Run) {
    multiset(r.accepted) == multiset(r.books.order) + multiset(r.books.purged)
  }

  lemma WithoutConserves(r: Run, gone: seq<string>)
    requires Sound(r.books) && Conserved(r)
    requires NoDuplicates(gone) && forall id | id in gone :: id in r.books.order
    ensures Conserved(r.(books := Without(r.books, gone)))
  {
    var order := r.books.order;
    KeepAndDrop(order, Among(gone));
    KeepNoDuplicates(order, Among(gone));
    forall id ensures id in Keep(order, Among(gone)) <==> id in gone { KeepMembers(order, Among(gone), id); }
    SameBag(Keep(order, Among(gone)), gone);
  }

  lemma ExecConserves(p: Policy, r: Run, a: Action)
    requires Sound(r.books) && Conserved(r)
    ensures Conserved(Exec(p, r, a))
  {
    match a
    case Track(id, reason, at) =>
    case Expire(at) => ExpiryConserves(p, r, at);
    case Evict => EvictionConserves(p, r);
    case Reap(at) =>
      ExpiryConserves(p, r, at);
      EvictionConserves(p, r.(books := AfterExpiry(p, r.books, at)));
  }

  lemma ExpiryConserves(p: Policy, r: Run, at: Time)
    requires Sound(r.books) && Conserved(r)
    ensures Conserved(r.(books := AfterExpiry(p, r.books, at)))
  {
    ExpiredLive(p, r.books, at);
    WithoutConserves(r, Expired(p, r.books, at));
  }

  lemma EvictionConserves(p: Policy, r: Run)
    requires Sound(r.books) && Conserved(r)
    ensures Conserved(r.(books := Without(r.books, Oldest(p, r.books))))
  {
    SizeOfSound(r.books);
    PrefixNoDuplicates(r.books.order, Excess(p, |r.books.order|));
    WithoutConserves(r, Oldest(p, r.books));
  }

  lemma {:induction false} AlwaysConserved(p: Policy, actions: seq<Action>)
    ensures Conserved(AfterRun(p, actions))
  {
    if actions != [] {
      var before := actions[..|actions| - 1];
      AlwaysConserved(p, before);
      ExecConserves(p, AfterRun(p, before), actions[|actions| - 1]);
    }
  }

  // ---------- Age order over runs ----------

  lemma WithoutKeepsAge(b: Books, gone: seq<string>)
    requires Sound(b) && ByAge(b)
    ensures ByAge(Without(b, gone))
  {
    var c := Without(b, gone);
    KeepSorted(b.order, Not(Among(gone)), NoYounger(b.entries));
    WithoutSound(b, gone);
    forall i, j | 0 <= i < j < |c.order| ensures NoYounger(c.entries)(c.order[i], c.order[j]) {
      assert c.order[i] in c.order && c.order[j] in c.order;
      assert NoYounger(b.entries)(c.order[i], c.order[j]);
    }
  }

  /** No live entry is younger than `t`. */
  ghost predicate AllBy(b: Books, t: Time) {
    forall id | id in b.entries :: b.entries[id].recordedAt <= t
  }

  lemma TrackedKeepsAge(b: Books, id: string, reason: string, now: Time)
    requires Sound(b) && ByAge(b) && AllBy(b, now)
    ensures ByAge(Tracked(b, id, reason, now))
  {
    var c := Tracked(b, id, reason, now);
    forall i, j | 0 <= i < j < |c.order| ensures NoYounger(c.entries)(c.order[i], c.order[j]) {
      assert c.order[i] in c.order && c.order[j] in c.order;
      TrackedSound(b, id, reason, now);
      if j < |b.order| {
        assert NoYounger(b.entries)(b.order[i], b.order[j]);
      }
    }
  }

  lemma OldestFirst(b: Books)
    requires Sound(b) && ByAge(b)
    ensures forall i, j | 0 <= i < j < |b.order| ::
              && b.order[i] in b.entries && b.order[j] in b.entries
              && b.entries[b.order[i]].recordedAt <= b.entries[b.order[j]].recordedAt
  {
    forall i, j | 0 <= i < j < |b.order|
      ensures b.order[i] in b.entries && b.order[j] in b.entries
      ensures b.entries[b.order[i]].recordedAt <= b.entries[b.order[j]].recordedAt
    {
      assert NoYounger(b.entries)(b.order[i], b.order[j]);
    }
  }

  function At(a: Action, otherwise: Time): Time {
    if a.Evict? then otherwise else a.at
  }

  lemma ReapKeepsAge(p: Policy, b: Books, now: Time, clock: Time)
    requires Sound(b) && ByAge(b) && AllBy(b, clock)
    ensures ByAge(Reaped(p, b, now)) && AllBy(Reaped(p, b, now), clock)
  {
    var m := AfterExpiry(p, b, now);
    WithoutKeepsAge(b, Expired(p, b, now));
    WithoutKeepsAge(m, Oldest(p, m));
  }

  lemma ExecKeepsAge(p: Policy, r: Run, a: Action, clock: Time)
    requires Sound(r.books) && ByAge(r.books) && AllBy(r.books, At(a, clock)) && At(a, clock) <= clock
    ensures ByAge(Exec(p, r, a).books) && AllBy(Exec(p, r, a).books, clock)
  {
    match a
    case Track(id, reason, at) => TrackedKeepsAge(r.books, id, reason, at);
    case Expire(at) => WithoutKeepsAge(r.books, Expired(p, r.books, at));
    case Evict => WithoutKeepsAge(r.books, Oldest(p, r.books));
    case Reap(at) => ReapKeepsAge(p, r.books, at, clock);
  }

  /** The clock the run ends at, when it never goes back. */
  ghost predicate Timely(actions: seq<Action>, clock: Time) {
    actions == [] ||
    var last := actions[|actions| - 1];
    At(last, clock) <= clock && Timely(actions[..|actions| - 1], At(last, clock))
  }

  /** While the clock does not go back, the ledger lists its entries oldest first, so every pass of the
      reaper cuts at the front. */
  lemma {:induction false} AlwaysByAge(p: Policy, actions: seq<Action>, clock: Time)
    requires Timely(actions, clock)
    ensures ByAge(AfterRun(p, actions).books) && AllBy(AfterRun(p, actions).books, clock)
  {
    if actions != [] {
      var before, last := actions[..|actions| - 1], actions[|actions| - 1];
      AlwaysByAge(p, before, At(last, clock));
      ExecKeepsAge(p, AfterRun(p, before), last, clock);
    }
  }
}
