/**
 The bounded FIFO cache in front of the account read: first as the object, then
 as interleaved steps in which a lookup awaits its loader while others go on.
 */
module SessionCache {
  import opened Prelude

  const MAX_ENTRIES: nat := 10_000

  datatype Entry<V> = Entry(value: V, expiresAt: int)

  /** An insertion-ordered map: `order` lists the keys as they entered. */
  datatype Cache<V> = Cache(order: seq<string>, entries: map<string, Entry<V>>)

  datatype Outcome<V> = Fresh(value: V) | Loaded(value: V) | Stale(value: V) | Unavailable

  ghost predicate Valid<V>(c: Cache<V>) {
    && Distinct(c.order)
    && (forall k :: k in c.order <==> k in c.entries)
    && |c.order| <= MAX_ENTRIES
  }

  function Without(order: seq<string>, key: string): (r: seq<string>)
    ensures key !in r
    ensures forall k :: k in r <==> k in order && k != key
  {
    if order == [] then []
    else if order[0] == key then Without(order[1..], key)
    else [order[0]] + Without(order[1..], key)
  }

  function Drop<V>(c: Cache<V>, key: string): Cache<V> {
    Cache(Without(c.order, key), c.entries - {key})
  }

  /** Overwriting keeps a key's place; a new key goes last, and first pushes out the oldest when full. */
  function Put<V>(c: Cache<V>, key: string, e: Entry<V>): Cache<V> {
    if key in c.entries then c.(entries := c.entries[key := e])
    else
      var room := if |c.entries| >= MAX_ENTRIES && c.order != [] then Drop(c, c.order[0]) else c;
      Cache(room.order + [key], room.entries[key := e])
  }

  function FreshAt<V>(c: Cache<V>, key: string, now: int): Option<V> {
    if key in c.entries && c.entries[key].expiresAt > now then Some(c.entries[key].value) else None
  }

  /**
   The documented outcome of a lookup: a live entry answers alone; otherwise what
   the loader resolves to, which is stored; otherwise, when it throws, the entry
   known before, however old.
   */
  ghost predicate LookedUp<V>(before: Cache<V>, key: string, now: int, loaded: Option<V>, later: int, ttl: int,
                              after: Cache<V>, outcome: Outcome<V>)
  {
    match outcome
    case Fresh(v) =>
      key in before.entries && now < before.entries[key].expiresAt && v == before.entries[key].value && after == before
    case Loaded(v) =>
      && !(key in before.entries && now < before.entries[key].expiresAt) && loaded == Some(v)
      && after == Put(before, key, Entry(v, later + ttl))
      && key in after.entries && after.entries[key].value == v && after.entries[key].expiresAt == later + ttl
    case Stale(v) =>
      && key in before.entries && before.entries[key].expiresAt <= now && loaded == None && after == before
      && v == before.entries[key].value
    case Unavailable =>
      key !in before.entries && loaded == None && after == before
  }

  // ------------------------------------------------------------- the object

  lemma {:induction false} WithoutPrefix(order: seq<string>, i: nat)
    requires Distinct(order) && i < |order|
    ensures Without(order, order[i]) == order[..i] + order[i + 1..]
  {
    var key := order[i];
    if i == 0 {
      WithoutAbsent(order[1..], key);
    } else {
      WithoutPrefix(order[1..], i - 1);
      assert order[1..][..i - 1] == order[1..i];
    }
  }

  lemma {:induction false} WithoutAbsent(order: seq<string>, key: string)
    requires key !in order
    ensures Without(order, key) == order
  {
    if order != [] { WithoutAbsent(order[1..], key); }
  }

  lemma SizeOfOrder<V>(c: Cache<V>)
    requires Distinct(c.order) && forall k :: k in c.order <==> k in c.entries
    ensures |c.entries| == |c.order|
  {
    DistinctSize(c.order);
    assert (set k | k in c.order) == c.entries.Keys;
  }

  lemma {:induction false} DistinctSize(s: seq<string>)
    requires Distinct(s)
    ensures |set k | k in s| == |s|
  {
    if s != [] {
      var last := |s| - 1;
      DistinctSize(s[..last]);
      assert (set k | k in s) == (set k | k in s[..last]) + {s[last]};
      assert s[last] !in s[..last];
    }
  }

  lemma DropKeepsValid<V>(c: Cache<V>, key: string)
    requires Valid(c)
    ensures Valid(Drop(c, key))
    ensures key in c.entries ==> |Drop(c, key).order| == |c.order| - 1
  {
    if key in c.order {
      var i :| 0 <= i < |c.order| && c.order[i] == key;
      WithoutPrefix(c.order, i);
    } else {
      WithoutAbsent(c.order, key);
    }
  }

  lemma PutKeepsValid<V>(c: Cache<V>, key: string, e: Entry<V>)
    requires Valid(c)
    ensures Valid(Put(c, key, e))
  {
    SizeOfOrder(c);
    if key !in c.entries && |c.entries| >= MAX_ENTRIES {
      DropKeepsValid(c, c.order[0]);
    }
  }

  class StaleWhileErrorCache<V> {
    var order: seq<string>
    var entries: map<string, Entry<V>>
    const ttlMs: int

    function Contents(): Cache<V>
      reads this
    {
      Cache(order, entries)
    }

    constructor (ttlMs: int)
      ensures this.ttlMs == ttlMs && Valid(Contents()) && entries == map[]
    {
      this.ttlMs := ttlMs;
      order, entries := [], map[];
    }

    method Set(key: string, value: V, now: int)
      requires Valid(Contents())
      modifies this
      ensures Valid(Contents())
      ensures Contents() == Put(old(Contents()), key, Entry(value, now + ttlMs))
      ensures key in entries && entries[key] == Entry(value, now + ttlMs)
      // only a new key in a full cache costs an entry, and then it is the first one in
      ensures forall k :: k in old(entries) && k != key ==>
                if key !in old(entries) && |old(entries)| == 10_000 && k == old(order)[0]
                then k !in entries else k in entries && entries[k] == old(entries)[k]
      ensures key in old(entries) ==> order == old(order)
    {
      PutKeepsValid(Contents(), key, Entry(value, now + ttlMs));
      SizeOfOrder(Contents());
      if |entries| >= MAX_ENTRIES && key !in entries {
        if order != [] {
          var oldest := order[0];
          order := Without(order, oldest);
          entries := entries - {oldest};
        }
      }
      if key !in entries { order := order + [key]; }
      entries := entries[key := Entry(value, now + ttlMs)];
    }

    /** `loaded` is what the loader resolves to, `None` when it throws; it resolves at `later`. */
    method Get(key: string, now: int, loaded: Option<V>, later: int) returns (outcome: Outcome<V>)
      requires Valid(Contents())
      modifies this
      ensures Valid(Contents())
      ensures LookedUp(old(Contents()), key, now, loaded, later, ttlMs, Contents(), outcome)
    {
      if key in entries && entries[key].expiresAt > now { return Fresh(entries[key].value); }
      if loaded.Some? {
        Set(key, loaded.value, later);
        return Loaded(loaded.value);
      }
      if key in entries { return Stale(entries[key].value); }
      return Unavailable;
    }

    method Invalidate(key: string)
      requires Valid(Contents())
      modifies this
      ensures Valid(Contents()) && Contents() == Drop(old(Contents()), key)
      ensures key !in entries && entries == old(entries) - {key}
    {
      DropKeepsValid(Contents(), key);
      order := Without(order, key);
      entries := entries - {key};
    }

    method Clear()
      modifies this
      ensures Valid(Contents()) && entries == map[]
    {
      order, entries := [], map[];
    }
  }

  // ------------------------------------------------- lookups that await a loader

  /** A lookup awaiting its loader remembers the entry it found when it began. */
  datatype Lookup<V> = Lookup(key: string, held: Option<Entry<V>>)

  datatype CacheState<V> = CacheState(cache: Cache<V>, now: int, pending: map<nat, Lookup<V>>)

  datatype CacheEvent<V> =
    | Tick(to: int)
    | GetBegin(p: nat, key: string)
    | GetLoaded(p: nat, loaded: V)
    | GetThrew(p: nat)
    | SetKey(key: string, value: V)
    | InvalidateKey(key: string)
    | ClearAll

  predicate CanHappen<V>(s: CacheState<V>, e: CacheEvent<V>) {
    match e
    case Tick(to) => s.now <= to
    case GetBegin(p, _) => p !in s.pending
    case GetLoaded(p, _) => p in s.pending
    case GetThrew(p) => p in s.pending
    case _ => true
  }

  function Happen<V>(s: CacheState<V>, e: CacheEvent<V>, ttl: int): CacheState<V>
    requires CanHappen(s, e)
  {
    match e
    case Tick(to) => s.(now := to)
    case GetBegin(p, k) =>
      if FreshAt(s.cache, k, s.now).Some? then s
      else s.(pending := s.pending[p := Lookup(k, if k in s.cache.entries then Some(s.cache.entries[k]) else None)])
    case GetLoaded(p, v) =>
      s.(cache := Put(s.cache, s.pending[p].key, Entry(v, s.now + ttl)), pending := s.pending - {p})
    case GetThrew(p) => s.(pending := s.pending - {p})
    case SetKey(k, v) => s.(cache := Put(s.cache, k, Entry(v, s.now + ttl)))
    case InvalidateKey(k) => s.(cache := Drop(s.cache, k))
    case ClearAll => s.(cache := Cache([], map[]))
  }

  /** The step by which a loader resolves or throws. */
  function LoaderEnds<V>(p: nat, loaded: Option<V>): CacheEvent<V> {
    if loaded.Some? then GetLoaded(p, loaded.value) else GetThrew(p)
  }

  /** The answer the step gives its caller, if it gives one. */
  function Answer<V>(s: CacheState<V>, e: CacheEvent<V>): Option<Outcome<V>>
    requires CanHappen(s, e)
  {
    match e
    case GetBegin(p, k) =>
      var hit := FreshAt(s.cache, k, s.now);
      if hit.Some? then Some(Fresh(hit.value)) else None
    case GetLoaded(p, v) => Some(Loaded(v))
    case GetThrew(p) =>
      Some(if s.pending[p].held.Some? then Stale(s.pending[p].held.value.value) else Unavailable)
    case _ => None
  }

  /** A lookup nobody interrupts has exactly the documented outcome. */
  lemma UninterruptedLookup<V>(s: CacheState<V>, p: nat, key: string, loaded: Option<V>, later: int, ttl: int)
    requires CanHappen(s, GetBegin(p, key)) && s.now <= later
    ensures
      var begun := Happen(s, GetBegin(p, key), ttl);
      var answer := Answer(s, GetBegin(p, key));
      if answer.Some? then LookedUp(s.cache, key, s.now, loaded, later, ttl, begun.cache, answer.value)
      else
        var waited := Happen(begun, Tick(later), ttl);
        var e := LoaderEnds(p, loaded);
        && CanHappen(waited, e) && Answer(waited, e).Some?
        && LookedUp(s.cache, key, s.now, loaded, later, ttl, Happen(waited, e, ttl).cache, Answer(waited, e).value)
  {
  }

  ghost predicate CacheRun<V>(ss: seq<CacheState<V>>, es: seq<CacheEvent<V>>, ttl: int) {
    && |ss| == |es| + 1
    && ss[0].cache == Cache([], map[]) && ss[0].pending == map[]
    && forall i {:trigger es[i]} :: 0 <= i < |es| ==> CanHappen(ss[i], es[i]) && ss[i + 1] == Happen(ss[i], es[i], ttl)
  }

  /** The step stores `v` under `k`. */
  predicate StoresValue<V(==)>(s: CacheState<V>, e: CacheEvent<V>, k: string, v: V) {
    match e
    case GetLoaded(p, w) => p in s.pending && s.pending[p].key == k && v == w
    case SetKey(j, w) => j == k && v == w
    case _ => false
  }

  /** The step stores under `k` or drops `k`. */
  predicate Touches<V>(s: CacheState<V>, e: CacheEvent<V>, k: string) {
    match e
    case GetLoaded(p, _) => p in s.pending && s.pending[p].key == k
    case SetKey(j, _) => j == k
    case InvalidateKey(j) => j == k
    case ClearAll => true
    case _ => false
  }

  lemma StepKeepsValid<V>(s: CacheState<V>, e: CacheEvent<V>, ttl: int)
    requires Valid(s.cache) && CanHappen(s, e)
    ensures Valid(Happen(s, e, ttl).cache)
  {
    match e
    case GetLoaded(p, v) => PutKeepsValid(s.cache, s.pending[p].key, Entry(v, s.now + ttl));
    case SetKey(k, v) => PutKeepsValid(s.cache, k, Entry(v, s.now + ttl));
    case InvalidateKey(k) => DropKeepsValid(s.cache, k);
    case _ =>
  }

  /** In every reachable state the cache is within its bound and its order lists its keys once each. */
  lemma {:induction false} CacheStaysValid<V>(ss: seq<CacheState<V>>, es: seq<CacheEvent<V>>, ttl: int, n: nat)
    requires CacheRun(ss, es, ttl) && n < |ss|
    ensures Valid(ss[n].cache) && |ss[n].cache.entries| <= 10_000
  {
    if n > 0 {
      CacheStaysValid(ss, es, ttl, n - 1);
      assert CanHappen(ss[n - 1], es[n - 1]) && ss[n] == Happen(ss[n - 1], es[n - 1], ttl);
      StepKeepsValid(ss[n - 1], es[n - 1], ttl);
    }
    SizeOfOrder(ss[n].cache);
  }

  /** An entry present after a step was stored by it or was there, the same, before. */
  lemma StepOrigin<V>(s: CacheState<V>, e: CacheEvent<V>, ttl: int, k: string)
    requires CanHappen(s, e) && k in Happen(s, e, ttl).cache.entries
    ensures
      var entry := Happen(s, e, ttl).cache.entries[k];
      if Touches(s, e, k) then StoresValue(s, e, k, entry.value) && entry.expiresAt == s.now + ttl
      else k in s.cache.entries && s.cache.entries[k] == entry
  {
  }

  /** The last step of a run, seen from one entry present after it. */
  lemma LastStepOrigin<V>(ss: seq<CacheState<V>>, es: seq<CacheEvent<V>>, ttl: int, n: nat, k: string)
    requires CacheRun(ss, es, ttl) && n < |ss| && k in ss[n].cache.entries
    ensures n > 0
    ensures if Touches(ss[n - 1], es[n - 1], k)
            then StoresValue(ss[n - 1], es[n - 1], k, ss[n].cache.entries[k].value)
                 && ss[n].cache.entries[k].expiresAt == ss[n - 1].now + ttl
            else k in ss[n - 1].cache.entries && ss[n - 1].cache.entries[k] == ss[n].cache.entries[k]
  {
    assert CanHappen(ss[n - 1], es[n - 1]) && ss[n] == Happen(ss[n - 1], es[n - 1], ttl);
    StepOrigin(ss[n - 1], es[n - 1], ttl, k);
  }

  /** The entry for `k` in state `n` was stored by step `i`, and nothing touched its key since. */
  ghost predicate StoredAt<V>(ss: seq<CacheState<V>>, es: seq<CacheEvent<V>>, ttl: int, n: nat, k: string, i: nat) {
    && i < n < |ss| && n <= |es| && k in ss[n].cache.entries
    && StoresValue(ss[i], es[i], k, ss[n].cache.entries[k].value)
    && ss[n].cache.entries[k].expiresAt == ss[i].now + ttl
    && forall m :: i < m < n ==> !Touches(ss[m], es[m], k)
  }

  /** Every entry present was put there by one step, and nothing touched its key since. */
  lemma {:induction false} EntryOrigin<V>(ss: seq<CacheState<V>>, es: seq<CacheEvent<V>>, ttl: int, n: nat, k: string)
    returns (i: nat)
    requires CacheRun(ss, es, ttl) && n < |ss| && k in ss[n].cache.entries
    ensures StoredAt(ss, es, ttl, n, k, i)
  {
    LastStepOrigin(ss, es, ttl, n, k);
    if Touches(ss[n - 1], es[n - 1], k) {
      i := n - 1;
    } else {
      i := EntryOrigin(ss, es, ttl, n - 1, k);
      forall m | i < m < n ensures !Touches(ss[m], es[m], k) {
        if m < n - 1 { assert !Touches(ss[m], es[m], k); }
      }
    }
  }

  /** A fresh answer is the value last stored for the key, stored less than one TTL ago. */
  lemma FreshIsLastStored<V>(ss: seq<CacheState<V>>, es: seq<CacheEvent<V>>, ttl: int, j: nat, k: string, p: nat)
    returns (i: nat)
    requires CacheRun(ss, es, ttl) && j < |es| && es[j] == GetBegin(p, k)
    requires Answer(ss[j], es[j]).Some?
    ensures i < j && StoresValue(ss[i], es[i], k, Answer(ss[j], es[j]).value.value)
    ensures ss[j].now < ss[i].now + ttl
    ensures forall m :: i < m < j ==> !Touches(ss[m], es[m], k)
  {
    i := EntryOrigin(ss, es, ttl, j, k);
  }

  /** What a pending lookup holds is the entry its key had when it began. */
  lemma {:induction false} LookupOrigin<V>(ss: seq<CacheState<V>>, es: seq<CacheEvent<V>>, ttl: int, n: nat, p: nat)
    returns (b: nat)
    requires CacheRun(ss, es, ttl) && n < |ss| && p in ss[n].pending
    ensures b < n && es[b] == GetBegin(p, ss[n].pending[p].key)
    ensures ss[n].pending[p].held ==
      if ss[n].pending[p].key in ss[b].cache.entries then Some(ss[b].cache.entries[ss[n].pending[p].key]) else None
    ensures forall m :: b < m < n ==> p in ss[m].pending && ss[m].pending[p] == ss[n].pending[p]
  {
    assert CanHappen(ss[n - 1], es[n - 1]);
    if p in ss[n - 1].pending {
      b := LookupOrigin(ss, es, ttl, n - 1, p);
    } else {
      b := n - 1;
    }
  }

  /** A failed load answers with the entry held when that lookup began; "unavailable" only if there was none. */
  lemma StaleIsTheEntryAtBegin<V>(ss: seq<CacheState<V>>, es: seq<CacheEvent<V>>, ttl: int, j: nat, p: nat)
    returns (b: nat)
    requires CacheRun(ss, es, ttl) && j < |es| && es[j] == GetThrew(p)
    ensures b < j && es[b] == GetBegin(p, ss[j].pending[p].key)
    ensures var k := ss[j].pending[p].key;
      Answer(ss[j], es[j]) ==
      Some(if k in ss[b].cache.entries then Stale(ss[b].cache.entries[k].value) else Unavailable)
    ensures ss[j + 1].cache == ss[j].cache
  {
    b := LookupOrigin(ss, es, ttl, j, p);
  }

  // ------------------------------------------------------------------ eviction

  /** The step from which `k` has been present without a break up to state `n`. */
  ghost function Since<V>(ss: seq<CacheState<V>>, es: seq<CacheEvent<V>>, ttl: int, n: nat, k: string): nat
    requires CacheRun(ss, es, ttl) && n < |ss| && k in ss[n].cache.entries
    decreases n
  {
    if n > 0 && k in ss[n - 1].cache.entries then Since(ss, es, ttl, n - 1, k) else n
  }

  lemma {:induction false} SinceBound<V>(ss: seq<CacheState<V>>, es: seq<CacheEvent<V>>, ttl: int, n: nat, k: string)
    requires CacheRun(ss, es, ttl) && n < |ss| && k in ss[n].cache.entries
    ensures Since(ss, es, ttl, n, k) <= n
    ensures n > 0 && k in ss[n - 1].cache.entries ==> Since(ss, es, ttl, n, k) < n
    decreases n
  {
    if n > 0 && k in ss[n - 1].cache.entries { SinceBound(ss, es, ttl, n - 1, k); }
  }

  /** `a` stands before `b` in `order`. */
  ghost predicate Before(order: seq<string>, a: string, b: string) {
    exists i, j :: 0 <= i < j < |order| && order[i] == a && order[j] == b
  }

  lemma BeforeAroundHole(order: seq<string>, i: nat, a: string, b: string)
    requires i < |order| && Before(order[..i] + order[i + 1..], a, b)
    ensures Before(order, a, b)
  {
    var t := order[..i] + order[i + 1..];
    var x, y :| 0 <= x < y < |t| && t[x] == a && t[y] == b;
    assert order[if x < i then x else x + 1] == a;
    assert order[if y < i then y else y + 1] == b;
  }

  lemma BeforeAfterDrop(order: seq<string>, key: string, a: string, b: string)
    requires Distinct(order) && Before(Without(order, key), a, b)
    ensures Before(order, a, b)
  {
    if key in order {
      var i :| 0 <= i < |order| && order[i] == key;
      WithoutPrefix(order, i);
      BeforeAroundHole(order, i, a, b);
    } else {
      WithoutAbsent(order, key);
    }
  }

  /** A step keeps the relative order of keys that stay, and any new key comes last. */
  lemma StepKeepsOrder<V>(s: CacheState<V>, e: CacheEvent<V>, ttl: int, a: string, b: string)
    requires Valid(s.cache) && CanHappen(s, e)
    requires Before(Happen(s, e, ttl).cache.order, a, b)
    ensures a in s.cache.entries
    ensures b in s.cache.entries ==> Before(s.cache.order, a, b)
  {
    var t := Happen(s, e, ttl);
    match e
    case GetLoaded(p, v) => PutKeepsOrder(s.cache, s.pending[p].key, Entry(v, s.now + ttl), a, b);
    case SetKey(k, v) => PutKeepsOrder(s.cache, k, Entry(v, s.now + ttl), a, b);
    case InvalidateKey(k) => BeforeAfterDrop(s.cache.order, k, a, b);
    case _ =>
  }

  lemma PutKeepsOrder<V>(c: Cache<V>, key: string, e: Entry<V>, a: string, b: string)
    requires Valid(c) && Before(Put(c, key, e).order, a, b)
    ensures a in c.entries
    ensures b in c.entries ==> Before(c.order, a, b)
  {
    if key !in c.entries {
      var evicts := |c.entries| >= MAX_ENTRIES && c.order != [];
      var room := if evicts then Drop(c, c.order[0]) else c;
      var order := room.order + [key];
      var i, j :| 0 <= i < j < |order| && order[i] == a && order[j] == b;
      assert room.order[i] == a;
      assert a in room.order;
      if j < |room.order| {
        assert room.order[j] == b;
        assert Before(room.order, a, b);
        if evicts { BeforeAfterDrop(c.order, c.order[0], a, b); }
      }
    }
  }

  lemma BeforeArePresent<V>(c: Cache<V>, a: string, b: string)
    requires Valid(c) && Before(c.order, a, b)
    ensures a in c.entries && b in c.entries
  {
    assert a in c.order && b in c.order;
  }

  /** One step of a run, with its order facts only. */
  lemma RunKeepsOrder<V>(ss: seq<CacheState<V>>, es: seq<CacheEvent<V>>, ttl: int, n: nat, a: string, b: string)
    requires CacheRun(ss, es, ttl) && 0 < n < |ss| && Before(ss[n].cache.order, a, b)
    ensures a in ss[n - 1].cache.entries
    ensures b in ss[n - 1].cache.entries ==> Before(ss[n - 1].cache.order, a, b)
  {
    CacheStaysValid(ss, es, ttl, n - 1);
    assert CanHappen(ss[n - 1], es[n - 1]) && ss[n] == Happen(ss[n - 1], es[n - 1], ttl);
    StepKeepsOrder(ss[n - 1], es[n - 1], ttl, a, b);
  }

  /** The insertion order is the order of age, in every reachable state. */
  lemma {:induction false} OrderIsByAge<V>(ss: seq<CacheState<V>>, es: seq<CacheEvent<V>>, ttl: int, n: nat, a: string, b: string)
    requires CacheRun(ss, es, ttl) && n < |ss| && Before(ss[n].cache.order, a, b)
    ensures a in ss[n].cache.entries && b in ss[n].cache.entries
    ensures Since(ss, es, ttl, n, a) < Since(ss, es, ttl, n, b)
    decreases n
  {
    CacheStaysValid(ss, es, ttl, n);
    BeforeArePresent(ss[n].cache, a, b);
    if n > 0 {
      RunKeepsOrder(ss, es, ttl, n, a, b);
      if b in ss[n - 1].cache.entries {
        OrderIsByAge(ss, es, ttl, n - 1, a, b);
      } else {
        SinceBound(ss, es, ttl, n, a);
      }
    }
  }

  /** A key that a store pushes out of a full cache is the one present the longest. */
  lemma EvictsTheLongestPresent<V>(ss: seq<CacheState<V>>, es: seq<CacheEvent<V>>, ttl: int, n: nat, gone: string, k: string)
    requires CacheRun(ss, es, ttl) && n < |es|
    requires es[n].SetKey? || es[n].GetLoaded?
    requires gone in ss[n].cache.entries && gone !in ss[n + 1].cache.entries
    requires k in ss[n].cache.entries && k != gone
    ensures |ss[n].cache.entries| == 10_000
    ensures Since(ss, es, ttl, n, gone) < Since(ss, es, ttl, n, k)
  {
    CacheStaysValid(ss, es, ttl, n);
    var order := ss[n].cache.order;
    assert order[0] == gone;
    var j :| 0 <= j < |order| && order[j] == k;
    assert Before(order, gone, k);
    OrderIsByAge(ss, es, ttl, n, gone, k);
  }
}
