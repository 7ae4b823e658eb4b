// The problem cache (internal/activitymanager/problemcache/lr_cache.go): a doubly linked list in
// order of last touch, between two sentinel nodes, and a map from keys to its nodes. The methods
// change pointers and map in place; they are proved against functions on the list of entries.

module ProblemCache {
  datatype Entry = Entry(key: string, seen: int)

  // ---------- Keys in order ----------

  // Where a key stands, or the length when it is absent.
  function Position(keys: seq<string>, key: string): (p: nat)
    ensures p <= |keys| && (p < |keys| ==> keys[p] == key)
    ensures forall i :: 0 <= i < p ==> keys[i] != key
  {
    if keys == [] || keys[0] == key then 0 else 1 + Position(keys[1..], key)
  }

  predicate NoRepeats(keys: seq<string>) { forall i, j :: 0 <= i < j < |keys| ==> keys[i] != keys[j] }

  lemma PositionAt(keys: seq<string>, i: nat)
    requires NoRepeats(keys) && i < |keys|
    ensures Position(keys, keys[i]) == i
  {
  }

  function Drop<T>(s: seq<T>, p: nat): seq<T> { if p < |s| then s[..p] + s[p + 1..] else s }

  function Minus(keys: seq<string>, key: string): seq<string> { Drop(keys, Position(keys, key)) }

  lemma MinusFacts(keys: seq<string>, key: string)
    requires NoRepeats(keys)
    ensures NoRepeats(Minus(keys, key)) && key !in Minus(keys, key)
    ensures key in keys <==> Position(keys, key) < |keys|
  {
  }

  // ---------- What the operations do to the list ----------

  function Keys(es: seq<Entry>): (r: seq<string>)
    ensures |r| == |es| && forall i :: 0 <= i < |es| ==> r[i] == es[i].key
  {
    seq(|es|, i requires 0 <= i < |es| => es[i].key)
  }

  predicate HasKey(es: seq<Entry>, key: string) { key in Keys(es) }

  predicate Distinct(es: seq<Entry>) { NoRepeats(Keys(es)) }

  // Oldest touch first.
  predicate Sorted(es: seq<Entry>) { forall i, j :: 0 <= i < j < |es| ==> es[i].seen <= es[j].seen }

  function Without(es: seq<Entry>, key: string): seq<Entry> { Drop(es, Position(Keys(es), key)) }

  function Touched(es: seq<Entry>, key: string, now: int): seq<Entry> { Without(es, key) + [Entry(key, now)] }

  // Record, in both its branches. The first does not return, so a key that is present is moved to
  // the end and then added again.
  function Recorded(es: seq<Entry>, capacity: nat, key: string, now: int): seq<Entry>
    requires capacity >= 1 && |es| <= capacity
  {
    var a := if HasKey(es, key) then Touched(es, key, now) else es;
    var b := if |a| == capacity then a[1..] else a;
    b + [Entry(key, now)]
  }

  // PeriodicRun drops entries from the front until it meets one that has not expired.
  function Swept(es: seq<Entry>, cutoff: int): seq<Entry> {
    if es == [] || es[0].seen >= cutoff then es else Swept(es[1..], cutoff)
  }

  // ---------- Properties of the list operations ----------

  lemma WithoutKeys(es: seq<Entry>, key: string)
    ensures Keys(Without(es, key)) == Minus(Keys(es), key)
    ensures Sorted(es) ==> Sorted(Without(es, key))
  {
  }

  // A hit keeps one entry per key and the order of touches.
  lemma TouchKeepsOrder(es: seq<Entry>, key: string, now: int)
    requires Distinct(es) && Sorted(es) && HasKey(es, key) && forall i :: 0 <= i < |es| ==> es[i].seen <= now
    ensures var r := Touched(es, key, now);
      Distinct(r) && Sorted(r) && |r| == |es| && Keys(r) == Minus(Keys(es), key) + [key]
  {
    WithoutKeys(es, key);
    MinusFacts(Keys(es), key);
    var r := Touched(es, key, now);
    assert Keys(r) == Minus(Keys(es), key) + [key];
    hide Minus;
    assert forall i :: 0 <= i < |Keys(es)| - 1 ==> Minus(Keys(es), key)[i] in Minus(Keys(es), key);
  }

  // A sweep that stops early removes exactly what a full filter by the cutoff would.
  function Filtered(es: seq<Entry>, cutoff: int): seq<Entry> {
    if es == [] then []
    else if es[0].seen < cutoff then Filtered(es[1..], cutoff)
    else [es[0]] + Filtered(es[1..], cutoff)
  }

  // What a filter leaves: what was seen at the cutoff or later, in order.
  lemma {:induction false} FilteredExactly(es: seq<Entry>, cutoff: int)
    ensures forall e :: e in Filtered(es, cutoff) <==> e in es && e.seen >= cutoff
    ensures Sorted(es) ==> Sorted(Filtered(es, cutoff))
  {
    if es != [] {
      FilteredExactly(es[1..], cutoff);
      assert es == [es[0]] + es[1..];
      assert Sorted(es) ==> forall e :: e in es[1..] ==> es[0].seen <= e.seen;
    }
  }

  lemma {:induction false} EarlyStopIsExact(es: seq<Entry>, cutoff: int)
    requires Sorted(es)
    ensures Swept(es, cutoff) == Filtered(es, cutoff)
  {
    if es != [] {
      EarlyStopIsExact(es[1..], cutoff);
      if es[0].seen >= cutoff { NothingExpired(es, cutoff); }
    }
  }

  lemma {:induction false} NothingExpired(es: seq<Entry>, cutoff: int)
    requires forall i :: 0 <= i < |es| ==> es[i].seen >= cutoff
    ensures Filtered(es, cutoff) == es
  {
    if es != [] { NothingExpired(es[1..], cutoff); }
  }

  // Record leaves one entry per key exactly when the key was absent, or alone in a cache of one.
  lemma RecordIsDistinctExactly(es: seq<Entry>, capacity: nat, key: string, now: int)
    requires capacity >= 1 && |es| <= capacity && Distinct(es)
    ensures Distinct(Recorded(es, capacity, key, now)) <==> !HasKey(es, key) || (capacity == 1 && |es| == 1)
  {
    var r := Recorded(es, capacity, key, now);
    var n := |r|;
    if HasKey(es, key) {
      if |es| < capacity || capacity > 1 { assert Keys(r)[n - 2] == key && Keys(r)[n - 1] == key; }
    } else {
      assert forall i :: 0 <= i < |es| ==> Keys(es)[i] in Keys(es);
      assert forall i :: 0 <= i < n - 1 ==> r[i] == es[|es| - (n - 1) + i];
    }
  }

  // After a miss Record keeps the order, stays within the capacity, and a full cache loses exactly
  // its least recently touched key.
  lemma RecordAfterMiss(es: seq<Entry>, capacity: nat, key: string, now: int)
    requires capacity >= 1 && |es| <= capacity && Distinct(es) && Sorted(es) && !HasKey(es, key)
    requires forall i :: 0 <= i < |es| ==> es[i].seen <= now
    ensures var r := Recorded(es, capacity, key, now);
      Distinct(r) && Sorted(r) && |r| <= capacity && r[|r| - 1] == Entry(key, now) &&
      r[..|r| - 1] == (if |es| == capacity then es[1..] else es) &&
      (|es| == capacity ==> forall i :: 0 < i < |es| ==> es[0].seen <= es[i].seen)
  {
  }

  // ---------- Which keys survive ----------

  function Last<T>(s: seq<T>, n: nat): seq<T> { if |s| <= n then s else s[|s| - n..] }

  // The caller's discipline on keys alone: a hit moves the key to the end, a miss records it.
  function Kept(keys: seq<string>, capacity: nat, key: string): seq<string>
    requires capacity >= 1
  {
    if key in keys then Minus(keys, key) + [key]
    else (if |keys| >= capacity then keys[1..] else keys) + [key]
  }

  lemma LastOfNew<T>(all: seq<T>, capacity: nat, x: T)
    requires capacity >= 1
    ensures var kept := Last(all, capacity);
      Last(all + [x], capacity) == (if |kept| >= capacity then kept[1..] else kept) + [x]
  {
  }

  // The entry was touched before, but has been evicted since.
  lemma LastOfOlder<T>(all: seq<T>, capacity: nat, x: T, p: nat)
    requires 1 <= capacity < |all| && p < |all| - capacity
    ensures Last(Drop(all, p) + [x], capacity) == Last(all, capacity)[1..] + [x]
  {
    var l := Drop(all, p) + [x];
    assert |l| == |all|;
    assert Last(l, capacity) == l[|all| - capacity..];
  }

  lemma LastOfKept<T>(all: seq<T>, capacity: nat, x: T, p: nat)
    requires 1 <= capacity && |all| - |Last(all, capacity)| <= p < |all|
    ensures Last(Drop(all, p) + [x], capacity) == Drop(Last(all, capacity), p - (|all| - |Last(all, capacity)|)) + [x]
  {
    var kept := Last(all, capacity);
    var gone := |all| - |kept|;
    var l, q := Drop(all, p) + [x], p - gone;
    assert l == all[..p] + all[p + 1..] + [x] && |l| == |all| && Last(l, capacity) == l[gone..];
    assert kept == all[gone..] && kept[..q] == all[gone..p] && kept[q + 1..] == all[p + 1..];
    assert l[gone..] == all[gone..p] + all[p + 1..] + [x];
  }

  lemma DropNothing<T>(s: seq<T>)
    ensures Drop(s, |s|) == s
  {
  }

  lemma LastRepeats(all: seq<string>, capacity: nat, key: string)
    requires NoRepeats(all)
    ensures var kept := Last(all, capacity);
      var p := Position(all, key);
      key in kept <==> |all| - |kept| <= p < |all|
    ensures var kept := Last(all, capacity);
      key in kept ==> Position(kept, key) == Position(all, key) - (|all| - |kept|)
  {
    var kept := Last(all, capacity);
    var p, gone := Position(all, key), |all| - |kept|;
    assert forall i :: 0 <= i < |kept| ==> kept[i] == all[gone + i];
    assert NoRepeats(kept);
    if gone <= p < |all| { PositionAt(kept, p - gone); }
  }

  lemma LastKeys(es: seq<Entry>, capacity: nat)
    ensures Keys(Last(es, capacity)) == Last(Keys(es), capacity)
  {
  }

  // A hit refreshes, a miss records: what a caller that looks before it records does to the list.
  function Handled(es: seq<Entry>, capacity: nat, key: string, now: int): seq<Entry>
    requires capacity >= 1 && |es| <= capacity
  {
    if HasKey(es, key) then Touched(es, key, now) else Recorded(es, capacity, key, now)
  }

  lemma HandledKeys(es: seq<Entry>, capacity: nat, key: string, now: int)
    requires capacity >= 1 && |es| <= capacity
    ensures Keys(Handled(es, capacity, key, now)) == Kept(Keys(es), capacity, key)
  {
    WithoutKeys(es, key);
  }

  // One look: the room for the newest entries is filled the same way before and after.
  lemma HandledIsLast(all: seq<Entry>, capacity: nat, key: string, now: int)
    requires capacity >= 1 && Distinct(all)
    ensures Handled(Last(all, capacity), capacity, key, now) == Last(Touched(all, key, now), capacity)
  {
    hide Drop, NoRepeats;
    var n, p, kept := |all|, Position(Keys(all), key), Last(all, capacity);
    LastKeys(all, capacity);
    LastRepeats(Keys(all), capacity, key);
    if p == n {
      DropNothing(all);
      LastOfNew(all, capacity, Entry(key, now));
    } else if p < n - |kept| {
      LastOfOlder(all, capacity, Entry(key, now), p);
    } else {
      LastOfKept(all, capacity, Entry(key, now), p);
    }
  }

  // ---------- Looks and sweeps ----------

  datatype Use = Look(key: string, now: int) | Sweep(now: int)

  // The clock does not go back.
  predicate InTime(uses: seq<Use>) { forall i, j :: 0 <= i < j < |uses| ==> uses[i].now <= uses[j].now }

  // The list after some uses of a cache of that capacity and time to live.
  function After(uses: seq<Use>, capacity: nat, ttl: int): (r: seq<Entry>)
    requires capacity >= 1
    ensures |r| <= capacity
  {
    if uses == [] then []
    else
      var es := After(uses[..|uses| - 1], capacity, ttl);
      match uses[|uses| - 1]
      case Look(key, now) => Handled(es, capacity, key, now)
      case Sweep(now) => FilteredShorter(es, now - ttl); Filtered(es, now - ttl)
  }

  lemma {:induction false} FilteredShorter(es: seq<Entry>, cutoff: int)
    ensures |Filtered(es, cutoff)| <= |es|
  {
    if es != [] { FilteredShorter(es[1..], cutoff); }
  }

  // Every key ever looked at with the time of its last look, oldest first; nothing is forgotten.
  function Looks(uses: seq<Use>): seq<Entry> {
    if uses == [] then []
    else
      var es := Looks(uses[..|uses| - 1]);
      match uses[|uses| - 1]
      case Look(key, now) => Touched(es, key, now)
      case Sweep(_) => es
  }

  // Those whose last look the latest sweep, if there was one, would not have expired.
  function Fresh(es: seq<Entry>, uses: seq<Use>, ttl: int): seq<Entry> {
    if uses == [] then es
    else if uses[|uses| - 1].Sweep? then Filtered(es, uses[|uses| - 1].now - ttl)
    else Fresh(es, uses[..|uses| - 1], ttl)
  }

  lemma {:induction false} LooksInOrder(uses: seq<Use>, now: int)
    requires InTime(uses) && forall i :: 0 <= i < |uses| ==> uses[i].now <= now
    ensures Distinct(Looks(uses)) && Sorted(Looks(uses)) && NotAfter(Looks(uses), now)
  {
    if uses != [] {
      var before, use := uses[..|uses| - 1], uses[|uses| - 1];
      LooksInOrder(before, use.now);
      if use.Look? { TouchedInOrder(Looks(before), use.key, use.now); }
    }
  }

  lemma AppendNew(keys: seq<string>, key: string)
    requires NoRepeats(keys) && key !in keys
    ensures NoRepeats(keys + [key])
  {
    assert forall i :: 0 <= i < |keys| ==> keys[i] in keys;
  }

  lemma AppendLatest(es: seq<Entry>, e: Entry)
    requires Sorted(es) && NotAfter(es, e.seen)
    ensures Sorted(es + [e]) && NotAfter(es + [e], e.seen)
  {
  }

  lemma TouchedInOrder(es: seq<Entry>, key: string, now: int)
    requires Distinct(es) && Sorted(es) && NotAfter(es, now)
    ensures var r := Touched(es, key, now); Distinct(r) && Sorted(r) && NotAfter(r, now)
  {
    hide Sorted, NotAfter, NoRepeats, Drop, Position;
    WithoutKeys(es, key);
    MinusFacts(Keys(es), key);
    AppendNew(Minus(Keys(es), key), key);
    DropNotAfter(es, Position(Keys(es), key), now);
    AppendLatest(Without(es, key), Entry(key, now));
    assert Keys(Touched(es, key, now)) == Minus(Keys(es), key) + [key];
  }

  // How many entries at the front have expired.
  function Expired(es: seq<Entry>, cutoff: int): (k: nat)
    ensures k <= |es|
  {
    if es == [] || es[0].seen >= cutoff then 0 else 1 + Expired(es[1..], cutoff)
  }

  // A filter by cutoff takes off the front of an ordered list, also when part of it is gone already.
  lemma {:induction false} FilteredTail(es: seq<Entry>, cutoff: int, m: nat)
    requires Sorted(es) && m <= |es|
    ensures var k := Expired(es, cutoff); Filtered(es[m..], cutoff) == if m <= k then es[k..] else es[m..]
  {
    if es == [] {
    } else if es[0].seen >= cutoff {
      NothingExpired(es[m..], cutoff);
    } else if m == 0 {
      FilteredTail(es[1..], cutoff, 0);
      assert es[0..] == es && es[1..][0..] == es[1..];
    } else {
      FilteredTail(es[1..], cutoff, m - 1);
      assert es[m..] == es[1..][m - 1..];
    }
  }

  lemma LastOfTail<T>(s: seq<T>, k: nat, n: nat)
    requires k <= |s|
    ensures Last(s[k..], n) == if |s| - k <= n then s[k..] else s[|s| - n..]
  {
  }

  lemma FilteredLast(es: seq<Entry>, cutoff: int, capacity: nat)
    requires Sorted(es)
    ensures Filtered(Last(es, capacity), cutoff) == Last(Filtered(es, cutoff), capacity)
  {
    hide Sorted, Filtered, Expired, Last;
    var k, m := Expired(es, cutoff), if |es| <= capacity then 0 else |es| - capacity;
    assert es[0..] == es;
    LastOfTail(es, 0, capacity);
    FilteredTail(es, cutoff, m);
    FilteredTail(es, cutoff, 0);
    LastOfTail(es, k, capacity);
  }

  lemma FilteredTwice(es: seq<Entry>, cutoff: int, later: int)
    requires Sorted(es) && cutoff <= later
    ensures Filtered(Filtered(es, cutoff), later) == Filtered(es, later)
  {
    FilteredTail(es, cutoff, 0);
    FilteredTail(es, later, Expired(es, cutoff));
    FilteredTail(es, later, 0);
    ExpiredMore(es, cutoff, later);
    assert es[0..] == es;
  }

  lemma {:induction false} ExpiredMore(es: seq<Entry>, cutoff: int, later: int)
    requires cutoff <= later
    ensures Expired(es, cutoff) <= Expired(es, later)
  {
    if es != [] { ExpiredMore(es[1..], cutoff, later); }
  }

  lemma {:induction false} FilteredSteps(es: seq<Entry>, cutoff: int, e: Entry)
    requires e.seen >= cutoff
    ensures Filtered(es + [e], cutoff) == Filtered(es, cutoff) + [e]
  {
    if es == [] {
      assert es + [e] == [e];
    } else {
      FilteredSteps(es[1..], cutoff, e);
      assert (es + [e])[1..] == es[1..] + [e];
    }
  }

  lemma {:induction false} FilteredKeys(es: seq<Entry>, cutoff: int, key: string)
    requires !HasKey(es, key)
    ensures !HasKey(Filtered(es, cutoff), key)
  {
    if es != [] {
      assert forall i :: 0 <= i < |es| - 1 ==> Keys(es[1..])[i] == Keys(es)[i + 1];
      FilteredKeys(es[1..], cutoff, key);
      assert Keys(es)[0] == es[0].key;
    }
  }

  lemma WithoutAbsent(es: seq<Entry>, key: string)
    requires !HasKey(es, key)
    ensures Without(es, key) == es
  {
  }

  lemma DropHead(e: Entry, es: seq<Entry>)
    ensures Drop([e] + es, 0) == es
  {
    assert ([e] + es)[..0] == [] && ([e] + es)[1..] == es;
  }

  lemma DropNext(e: Entry, es: seq<Entry>, p: nat)
    ensures Drop([e] + es, p + 1) == [e] + Drop(es, p)
  {
    if p < |es| {
      var l := [e] + es;
      assert l[..p + 1] == [e] + es[..p];
      assert l[p + 2..] == es[p + 1..];
      assert [e] + es[..p] + es[p + 1..] == [e] + (es[..p] + es[p + 1..]);
    }
  }

  lemma PositionNext(e: Entry, es: seq<Entry>, key: string)
    ensures Position(Keys([e] + es), key) == if e.key == key then 0 else 1 + Position(Keys(es), key)
  {
    var keys := Keys([e] + es);
    assert keys[1..] == Keys(es) && keys[0] == e.key;
  }

  lemma WithoutFirst(e: Entry, es: seq<Entry>, key: string)
    ensures Without([e] + es, key) == if e.key == key then es else [e] + Without(es, key)
  {
    hide Drop, Position, Keys;
    PositionNext(e, es, key);
    DropHead(e, es);
    DropNext(e, es, Position(Keys(es), key));
  }

  lemma DistinctTail(es: seq<Entry>)
    requires es != [] && Distinct(es)
    ensures Distinct(es[1..]) && !HasKey(es[1..], es[0].key)
  {
    assert forall i :: 0 <= i < |es| - 1 ==> Keys(es[1..])[i] == Keys(es)[i + 1];
  }

  lemma {:induction false} FilteredWithout(es: seq<Entry>, cutoff: int, key: string)
    requires Distinct(es)
    ensures Filtered(Without(es, key), cutoff) == Without(Filtered(es, cutoff), key)
  {
    hide Without, Distinct, HasKey;
    if es == [] {
      NothingWithout(key);
    } else {
      var e, rest := es[0], es[1..];
      assert es == [e] + rest;
      DistinctTail(es);
      WithoutFirst(e, rest, key);
      FilteredWithout(rest, cutoff, key);
      WithoutFirst(e, Filtered(rest, cutoff), key);
      if e.key == key {
        FilteredKeys(rest, cutoff, key);
        WithoutAbsent(Filtered(rest, cutoff), key);
      }
    }
  }

  lemma NothingWithout(key: string)
    ensures Without([], key) == []
  {
  }

  lemma {:induction false} FreshTouched(es: seq<Entry>, uses: seq<Use>, ttl: int, key: string, now: int)
    requires Distinct(es) && ttl > 0 && forall i :: 0 <= i < |uses| ==> uses[i].now <= now
    ensures Fresh(Touched(es, key, now), uses, ttl) == Touched(Fresh(es, uses, ttl), key, now)
  {
    hide Without, Distinct;
    if uses != [] {
      var use := uses[|uses| - 1];
      if use.Sweep? {
        FilteredSteps(Without(es, key), use.now - ttl, Entry(key, now));
        FilteredWithout(es, use.now - ttl, key);
      } else {
        FreshTouched(es, uses[..|uses| - 1], ttl, key, now);
      }
    }
  }

  lemma TailInOrder(es: seq<Entry>, k: nat)
    requires Distinct(es) && Sorted(es) && k <= |es|
    ensures Distinct(es[k..]) && Sorted(es[k..])
  {
    assert forall i :: 0 <= i < |es| - k ==> Keys(es[k..])[i] == Keys(es)[k + i];
  }

  lemma {:induction false} FreshInOrder(es: seq<Entry>, uses: seq<Use>, ttl: int, cutoff: int)
    requires Distinct(es) && Sorted(es) && forall i :: 0 <= i < |uses| ==> uses[i].now - ttl <= cutoff
    ensures Distinct(Fresh(es, uses, ttl)) && Sorted(Fresh(es, uses, ttl))
    ensures Filtered(Fresh(es, uses, ttl), cutoff) == Filtered(es, cutoff)
  {
    hide Distinct, Sorted;
    if uses != [] {
      var use := uses[|uses| - 1];
      if use.Sweep? {
        FilteredTail(es, use.now - ttl, 0);
        assert es[0..] == es;
        TailInOrder(es, Expired(es, use.now - ttl));
        FilteredTwice(es, use.now - ttl, cutoff);
      } else {
        FreshInOrder(es, uses[..|uses| - 1], ttl, cutoff);
      }
    }
  }

  // However hits, misses and sweeps alternate, the cache holds exactly the keys last looked at most
  // recently, as many as it has room for, among those the latest sweep would not expire, in the
  // order of their last look. A cache's ticker demands a positive time to live.
  lemma {:induction false} HoldsMostRecentlyTouched(uses: seq<Use>, capacity: nat, ttl: int)
    requires capacity >= 1 && ttl > 0 && InTime(uses)
    ensures After(uses, capacity, ttl) == Last(Fresh(Looks(uses), uses, ttl), capacity)
  {
    hide Handled, Filtered, Touched, Distinct, Sorted, NotAfter;
    if uses != [] {
      var before, use := uses[..|uses| - 1], uses[|uses| - 1];
      HoldsMostRecentlyTouched(before, capacity, ttl);
      LooksInOrder(before, use.now);
      var all := Looks(before);
      FreshInOrder(all, before, ttl, use.now - ttl);
      if use.Look? {
        FreshTouched(all, before, ttl, use.key, use.now);
        HandledIsLast(Fresh(all, before, ttl), capacity, use.key, use.now);
      } else {
        FilteredLast(Fresh(all, before, ttl), use.now - ttl, capacity);
      }
    }
  }

  // ---------- The cache ----------

  class Node {
    const key: string
    const lastSeen: int
    var next: Node?
    var prev: Node?

    constructor (key: string, lastSeen: int)
      ensures this.key == key && this.lastSeen == lastSeen
    {
      this.key := key;
      this.lastSeen := lastSeen;
      next := null;
      prev := null;
    }
  }

  ghost predicate Chained(all: seq<Node>)
    reads all
  {
    |all| >= 2 && (forall i, j :: 0 <= i < j < |all| ==> all[i] != all[j]) &&
    forall i :: 0 <= i < |all| - 1 ==> all[i].next == all[i + 1] && all[i + 1].prev == all[i]
  }

  // The map holds exactly the nodes between the sentinels, each under its own key.
  ghost predicate Indexed(all: seq<Node>, cache: map<string, Node>) {
    |all| >= 2 &&
    (forall i :: 0 < i < |all| - 1 ==> all[i].key in cache && cache[all[i].key] == all[i]) &&
    (forall k :: k in cache ==> cache[k].key == k && exists i :: 0 < i < |all| - 1 && all[i] == cache[k])
  }

  ghost function Entries(all: seq<Node>): (r: seq<Entry>)
    requires |all| >= 2
    ensures |r| == |all| - 2 && forall i :: 0 <= i < |r| ==> r[i] == Entry(all[i + 1].key, all[i + 1].lastSeen)
  {
    seq(|all| - 2, i requires 0 <= i < |all| - 2 => Entry(all[i + 1].key, all[i + 1].lastSeen))
  }

  // Unlinking the i-th node and forgetting its key.
  lemma Unindexed(all: seq<Node>, cache: map<string, Node>, i: nat)
    requires Indexed(all, cache) && 0 < i < |all| - 1 && forall a, b :: 0 <= a < b < |all| ==> all[a] != all[b]
    ensures Indexed(Drop(all, i), cache - {all[i].key})
  {
    var rest := Drop(all, i);
    forall k | k in cache - {all[i].key} ensures exists j :: 0 < j < |rest| - 1 && rest[j] == cache[k] {
      var j :| 0 < j < |all| - 1 && all[j] == cache[k];
      assert rest[if j < i then j else j - 1] == cache[k];
    }
  }

  lemma UnlinkedEntries(all: seq<Node>, i: nat)
    requires 0 < i < |all| - 1
    ensures Entries(Drop(all, i)) == Drop(Entries(all), i - 1)
  {
  }

  lemma EntriesDistinct(all: seq<Node>, cache: map<string, Node>)
    requires Indexed(all, cache) && forall a, b :: 0 <= a < b < |all| ==> all[a] != all[b]
    ensures Distinct(Entries(all))
    ensures forall k :: k in cache <==> HasKey(Entries(all), k)
    ensures |cache| == |all| - 2
  {
    var es := Entries(all);
    forall k | k in cache ensures HasKey(es, k) {
      var j :| 0 < j < |all| - 1 && all[j] == cache[k];
      assert Keys(es)[j - 1] == k;
    }
    assert cache.Keys == set k | k in Keys(es);
    KeysCard(Keys(es));
  }

  lemma {:induction false} KeysCard(keys: seq<string>)
    requires NoRepeats(keys)
    ensures |set k | k in keys| == |keys|
  {
    if keys != [] {
      var front, last := keys[..|keys| - 1], keys[|keys| - 1];
      KeysCard(front);
      assert (set k | k in keys) == (set k | k in front) + {last};
    }
  }

  // The two pointer updates that take a node out of the list.
  method Unlink(node: Node, ghost all: seq<Node>, ghost i: nat)
    requires Chained(all) && 0 < i < |all| - 1 && node == all[i]
    modifies {all[i - 1], all[i + 1]}
    ensures Chained(Drop(all, i))
  {
    assert all[i - 1].next == all[i] && all[i].prev == all[i - 1] && all[i].next == all[i + 1];
    var before, after := node.prev, node.next;
    before.next := after;
    after.prev := before;
    ghost var rest := Drop(all, i);
    forall j | 0 <= j < |rest| - 1 ensures rest[j].next == rest[j + 1] && rest[j + 1].prev == rest[j] {
      if j + 1 < i {
        assert rest[j] == all[j] && rest[j + 1] == all[j + 1];
      } else if j + 1 > i {
        assert rest[j] == all[j + 1] && rest[j + 1] == all[j + 2];
      }
    }
  }

  // The pointer updates that put a new node before the last sentinel.
  method LinkLast(node: Node, last: Node, ghost all: seq<Node>)
    requires Chained(all) && last == all[|all| - 1] && node !in all
    modifies {all[|all| - 2], node, last}
    ensures Chained(all[..|all| - 1] + [node, last])
  {
    ghost var n := |all| - 1;
    assert all[n - 1].next == all[n] && all[n].prev == all[n - 1];
    var before := last.prev;
    before.next := node;
    node.next := last;
    node.prev := before;
    last.prev := node;
    ghost var more := all[..n] + [node, last];
    forall j | 0 <= j < |more| - 1 ensures more[j].next == more[j + 1] && more[j + 1].prev == more[j] {
      if j + 1 < n { assert more[j] == all[j] && more[j + 1] == all[j + 1]; }
    }
  }

  class LRCache {
    const lr: Node
    const mr: Node
    const capacity: nat
    const ttl: int
    var cache: map<string, Node>
    ghost var all: seq<Node>

    ghost predicate Valid()
      reads this, all
    {
      Chained(all) && all[0] == lr && all[|all| - 1] == mr && Indexed(all, cache) &&
      capacity >= 1 && |all| - 2 <= capacity && Sorted(Entries(all))
    }

    ghost function Contents(): seq<Entry>
      requires |all| >= 2
      reads this
    {
      Entries(all)
    }

    constructor (capacity: nat, ttl: int)
      requires capacity >= 1
      ensures Valid() && fresh(all) && Contents() == []
      ensures this.capacity == capacity && this.ttl == ttl
    {
      this.capacity := capacity;
      this.ttl := ttl;
      var first := new Node("", 0);
      var last := new Node("", 0);
      lr := first;
      mr := last;
      cache := map[];
      new;
      lr.next := mr;
      mr.prev := lr;
      all := [lr, mr];
    }

    method RemoveNode(node: Node, ghost i: nat)
      requires Valid() && 0 < i < |all| - 1 && node == all[i]
      modifies this, all
      ensures Valid() && all == Drop(old(all), i) && Contents() == Drop(old(Contents()), i - 1)
      ensures cache == old(cache) - {node.key}
      ensures |all| == |old(all)| - 1 && forall n :: n in all ==> n in old(all)
    {
      hide Sorted, Indexed, Entries, Drop;
      Distinguished(all);
      Unindexed(all, cache, i);
      UnlinkedEntries(all, i);
      DropSorted(Entries(all), i - 1);
      DropEnds(all, i);
      hide Chained;
      Unlink(node, all, i);
      cache := cache - {node.key};
      all := Drop(all, i);
    }

    method AddMR(key: string, now: int)
      requires Valid() && key !in cache && |all| - 2 < capacity && NotAfter(Contents(), now)
      modifies this, all
      ensures Valid() && Contents() == old(Contents()) + [Entry(key, now)]
      ensures cache.Keys == old(cache).Keys + {key}
      ensures forall n :: n in all ==> n in old(all) || fresh(n)
    {
      hide Sorted, Indexed, Entries, NotAfter;
      var node := new Node(key, now);
      Distinguished(all);
      Reindexed(all, cache, node);
      LinkedEntries(all, node);
      AppendSorted(Entries(all), Entry(key, now));
      hide Chained;
      LinkLast(node, mr, all);
      cache := cache[key := node];
      all := all[..|all| - 1] + [node, mr];
    }

    // A hit moves the key to the most recent end.
    method SeenRecently(key: string, now: int) returns (found: bool)
      requires Valid() && NotAfter(Contents(), now)
      modifies this, all
      ensures Valid() && found == HasKey(old(Contents()), key)
      ensures found <==> exists i :: 0 <= i < |old(Contents())| && old(Contents())[i].key == key
      ensures found ==>
        exists i :: 0 <= i < |old(Contents())| && old(Contents())[i].key == key &&
          Contents() == old(Contents())[..i] + old(Contents())[i + 1..] + [Entry(key, now)]
      ensures Contents() == if found then Touched(old(Contents()), key, now) else old(Contents())
      ensures !found ==> all == old(all)
      ensures forall n :: n in all ==> n in old(all) || fresh(n)
    {
      hide Sorted, Entries, Drop, NotAfter, Indexed, Chained, Distinct, HasKey, Without;
      Distinguished(all);
      EntriesDistinct(all, cache);
      TouchedAt(Entries(all), key, now);
      found := key in cache;
      if found {
        ghost var i := IndexOf(all, cache, key);
        DropNotAfter(Entries(all), i - 1, now);
        RemoveNode(cache[key], i);
        assert forall j :: 0 <= j < |all| ==> all[j] in old(all);
        AddMR(key, now);
      }
    }

    // The caller records only what it has just missed.
    method Record(key: string, now: int)
      requires Valid() && !HasKey(Contents(), key) && NotAfter(Contents(), now)
      modifies this, all
      ensures Valid() && Contents() == Recorded(old(Contents()), capacity, key, now)
      ensures Contents() == (if |old(Contents())| == capacity then old(Contents())[1..] else old(Contents())) + [Entry(key, now)]
      ensures forall n :: n in all ==> n in old(all) || fresh(n)
    {
      hide Sorted, Entries, Indexed, NotAfter, Drop, HasKey, Distinct, Chained;
      Distinguished(all);
      EntriesDistinct(all, cache);
      FirstNode(all);
      DropFirst(Entries(all));
      if capacity == |cache| {
        DropNotAfter(Entries(all), 0, now);
        RemoveNode(lr.next, 1);
        assert forall j :: 0 <= j < |all| ==> all[j] in old(all);
      }
      AddMR(key, now);
    }

    // The sweep stops at the first entry that has not expired, and still removes all that have.
    method PeriodicRun(now: int)
      requires Valid()
      modifies this, all
      ensures Valid() && Contents() == Filtered(old(Contents()), now - ttl)
      ensures forall e :: e in Contents() <==> e in old(Contents()) && e.seen >= now - ttl
      ensures forall n :: n in all ==> n in old(all)
    {
      hide Sorted, Indexed, Filtered;
      var cutoff := now - ttl;
      EarlyStopIsExact(Entries(all), cutoff);
      FilteredExactly(Entries(all), cutoff);
      var current := lr.next;
      while current != mr && current.lastSeen < cutoff
        invariant forall n :: n in all ==> n in old(all)
        invariant Valid() && current == all[1]
        invariant Swept(Contents(), cutoff) == Swept(old(Contents()), cutoff)
        decreases |all|
      {
        var next := current.next;
        assert Drop(Contents(), 0) == Contents()[1..];
        assert Contents()[0].seen < cutoff;
        assert forall i :: 0 <= i < |all| ==> all[i] in old(all);
        RemoveNode(current, 1);
        current := next;
      }
    }
  }

  // The activity manager's use of the cache: look, and record after a miss.
  method Observe(c: LRCache, key: string, now: int) returns (seen: bool)
    requires c.Valid() && NotAfter(c.Contents(), now)
    modifies c, c.all
    ensures c.Valid() && seen == HasKey(old(c.Contents()), key)
    ensures c.Contents() == Handled(old(c.Contents()), c.capacity, key, now)
    ensures Keys(c.Contents()) == Kept(old(Keys(c.Contents())), c.capacity, key)
  {
    HandledKeys(c.Contents(), c.capacity, key, now);
    hide Sorted, Entries, Indexed, Chained, NotAfter, HasKey;
    seen := c.SeenRecently(key, now);
    if !seen { c.Record(key, now); }
  }

  lemma TouchedAt(es: seq<Entry>, key: string, now: int)
    ensures HasKey(es, key) <==> exists i :: 0 <= i < |es| && es[i].key == key
    ensures HasKey(es, key) ==>
      exists i :: 0 <= i < |es| && es[i].key == key && Touched(es, key, now) == es[..i] + es[i + 1..] + [Entry(key, now)]
  {
    if HasKey(es, key) {
      var i := Position(Keys(es), key);
      assert es[i].key == key && Touched(es, key, now) == es[..i] + es[i + 1..] + [Entry(key, now)];
    }
  }

  predicate NotAfter(es: seq<Entry>, now: int) { forall i :: 0 <= i < |es| ==> es[i].seen <= now }

  lemma FirstNode(all: seq<Node>)
    requires Chained(all)
    ensures |all| >= 2 && all[0].next == all[1]
  {
  }

  lemma DropFirst(es: seq<Entry>)
    ensures |es| > 0 ==> Drop(es, 0) == es[1..]
  {
  }

  lemma DropNotAfter(es: seq<Entry>, p: nat, now: int)
    requires NotAfter(es, now)
    ensures NotAfter(Drop(es, p), now)
  {
  }

  lemma Reindexed(all: seq<Node>, cache: map<string, Node>, node: Node)
    requires Indexed(all, cache) && node.key !in cache
    ensures Indexed(all[..|all| - 1] + [node, all[|all| - 1]], cache[node.key := node])
  {
    var more := all[..|all| - 1] + [node, all[|all| - 1]];
    var index := cache[node.key := node];
    forall k | k in index ensures exists j :: 0 < j < |more| - 1 && more[j] == index[k] {
      if k == node.key {
        assert more[|more| - 2] == index[k];
      } else {
        var j :| 0 < j < |all| - 1 && all[j] == cache[k];
        assert more[j] == index[k];
      }
    }
  }

  lemma LinkedEntries(all: seq<Node>, node: Node)
    requires |all| >= 2
    ensures Entries(all[..|all| - 1] + [node, all[|all| - 1]]) == Entries(all) + [Entry(node.key, node.lastSeen)]
  {
  }

  lemma AppendSorted(es: seq<Entry>, e: Entry)
    requires Sorted(es) && NotAfter(es, e.seen)
    ensures Sorted(es + [e])
  {
  }

  lemma IndexOf(all: seq<Node>, cache: map<string, Node>, key: string) returns (i: nat)
    requires Indexed(all, cache) && key in cache && Distinct(Entries(all))
    ensures 0 < i < |all| - 1 && all[i] == cache[key] && cache[key].key == key
    ensures Without(Entries(all), key) == Drop(Entries(all), i - 1)
  {
    i :| 0 < i < |all| - 1 && all[i] == cache[key];
    PositionAt(Keys(Entries(all)), i - 1);
  }

  lemma Distinguished(all: seq<Node>)
    requires Chained(all)
    ensures |all| >= 2 && forall a, b :: 0 <= a < b < |all| ==> all[a] != all[b]
  {
  }

  lemma DropEnds(all: seq<Node>, i: nat)
    requires 0 < i < |all| - 1
    ensures var rest := Drop(all, i);
      |rest| == |all| - 1 && rest[0] == all[0] && rest[|rest| - 1] == all[|all| - 1] && forall n :: n in rest ==> n in all
  {
  }

  lemma DropSorted(es: seq<Entry>, p: nat)
    requires Sorted(es)
    ensures Sorted(Drop(es, p))
  {
  }
}
