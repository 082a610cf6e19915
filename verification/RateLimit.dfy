/**
 The fixed-window rate limiter: a counter store whose increment and first-hit
 expiry are one server-side step, and what that buys over whole runs.
 */
module RateLimit {
  import opened Prelude

  /** A stored counter; without an expiry it would live forever. */
  datatype Counter = Counter(count: int, expiresAt: Option<int>)

  type Counters = map<string, Counter>

  datatype Decision = Decision(allowed: bool, remaining: int, retryAfter: int)

  predicate Live(c: Counter, now: int) { c.expiresAt.Some? ==> now < c.expiresAt.value }

  /** The counter a command sees: expired ones are gone. */
  function Current(s: Counters, key: string, now: int): Option<Counter> {
    if key in s && Live(s[key], now) then Some(s[key]) else None
  }

  /** The whole script: increment, and on the first hit set the expiry (which deletes when not positive). */
  function Hit(s: Counters, key: string, window: int, now: int): Counters {
    match Current(s, key, now)
    case Some(c) => s[key := c.(count := c.count + 1)]
    case None => if window <= 0 then s - {key} else s[key := Counter(1, Some(now + window))]
  }

  function CountAfterHit(s: Counters, key: string, now: int): int {
    match Current(s, key, now) case Some(c) => c.count + 1 case None => 1
  }

  predicate Allows(s: Counters, key: string, limit: int, now: int) { CountAfterHit(s, key, now) <= limit }

  class RateLimitStore {
    var counters: Counters

    constructor ()
      ensures counters == map[]
    {
      counters := map[];
    }

    method Incr(key: string, now: int) returns (count: int)
      modifies this
      ensures count == CountAfterHit(old(counters), key, now)
      ensures key in counters && counters[key].count == count
      ensures Current(old(counters), key, now) == None ==> counters[key].expiresAt == None
      ensures Current(old(counters), key, now).Some? ==> counters[key].expiresAt == old(counters)[key].expiresAt
      ensures counters - {key} == old(counters) - {key}
    {
      var c := Current(counters, key, now);
      if c.Some? {
        counters := counters[key := c.value.(count := c.value.count + 1)];
      } else {
        counters := counters[key := Counter(1, None)];
      }
      count := counters[key].count;
    }

    method Expire(key: string, window: int, now: int)
      requires key in counters
      modifies this
      ensures counters == if window <= 0 then old(counters) - {key}
                          else old(counters)[key := old(counters)[key].(expiresAt := Some(now + window))]
    {
      if window <= 0 { counters := counters - {key}; }
      else { counters := counters[key := counters[key].(expiresAt := Some(now + window))]; }
    }

    /** The script, as one step of the store. */
    method IncrFixedWindow(key: string, window: int, now: int) returns (count: int)
      requires forall k :: k in counters ==> counters[k].count >= 1
      modifies this
      ensures counters == Hit(old(counters), key, window, now)
      ensures count == CountAfterHit(old(counters), key, now)
      ensures forall k :: k in counters ==> counters[k].count >= 1
      // no counter is ever left behind without its expiry
      ensures (forall k :: k in old(counters) ==> old(counters)[k].expiresAt.Some?) ==>
                forall k :: k in counters ==> counters[k].expiresAt.Some?
    {
      ghost var before := counters;
      count := Incr(key, now);
      assert forall k :: k in counters && k != key ==> k in counters - {key};
      assert forall k :: k in before && k != key ==> k in before - {key};
      if count == 1 {
        Expire(key, window, now);
      }
      assert counters.Keys == Hit(before, key, window, now).Keys;
      assert counters == Hit(before, key, window, now);
    }

    method CheckRateLimit(key: string, limit: int, window: int, now: int) returns (d: Decision)
      requires forall k :: k in counters ==> counters[k].count >= 1
      modifies this
      ensures counters == Hit(old(counters), key, window, now)
      ensures d.allowed <==> Allows(old(counters), key, limit, now)
      ensures d.allowed <==> CountAfterHit(old(counters), key, now) <= limit
      ensures d.remaining >= 0 && (d.remaining > 0 ==> d.allowed && CountAfterHit(old(counters), key, now) + d.remaining == limit)
      ensures d.allowed ==> CountAfterHit(old(counters), key, now) + d.remaining == limit
      ensures d.retryAfter == window
      ensures forall k :: k in counters ==> counters[k].count >= 1
    {
      var count := IncrFixedWindow(key, window, now);
      d := Decision(count <= limit, if limit - count > 0 then limit - count else 0, window);
    }

    method ClearKey(key: string)
      modifies this
      ensures counters == old(counters) - {key}
    {
      counters := counters - {key};
    }
  }

  // -------------------------------------------------------------- whole runs

  datatype State = State(counters: Counters, now: int)

  datatype Event =
    | Tick(to: int)
    | Attempt(key: string, limit: nat, window: int)
    | Clear(key: string)

  function Step(s: State, e: Event): State {
    match e
    case Tick(to) => s.(now := to)
    case Attempt(k, _, w) => s.(counters := Hit(s.counters, k, w, s.now))
    case Clear(k) => s.(counters := s.counters - {k})
  }

  ghost predicate Run(ss: seq<State>, es: seq<Event>) {
    && |ss| == |es| + 1 && ss[0].counters == map[]
    && forall i :: 0 <= i < |es| ==>
         (es[i].Tick? ==> ss[i].now <= es[i].to) && ss[i + 1] == Step(ss[i], es[i])
  }

  function Attempts(es: seq<Event>, from: nat, to: nat, key: string): nat
    requires from <= to <= |es|
  {
    if from == to then 0 else Attempts(es, from, to - 1, key) + if es[to - 1].Attempt? && es[to - 1].key == key then 1 else 0
  }

  /**
   Every stored counter has an expiry, exactly one window after the attempt that
   started it, and counts the attempts since.
   */
  lemma {:induction false} EveryCounterExpires(ss: seq<State>, es: seq<Event>, n: nat, key: string) returns (first: nat)
    requires Run(ss, es) && n < |ss| && key in ss[n].counters
    ensures first < n && es[first].Attempt? && es[first].key == key && es[first].window > 0
    ensures ss[n].counters[key].expiresAt == Some(ss[first].now + es[first].window)
    ensures ss[n].counters[key].count == Attempts(es, first, n, key)
    ensures forall i :: first <= i < n ==> es[i] != Clear(key)
  {
    var s, e := ss[n - 1], es[n - 1];
    if e.Attempt? && e.key == key && Current(s.counters, key, s.now) == None {
      first := n - 1;
      assert Attempts(es, first, first, key) == 0;
    } else {
      first := EveryCounterExpires(ss, es, n - 1, key);
    }
  }

  /**
   An attempt on the key is allowed exactly when fewer attempts than the limit have
   been made since the one that started the live counter, or, without a live
   counter, whenever the limit is not zero.
   */
  lemma AllowedIff(ss: seq<State>, es: seq<Event>, n: nat, key: string) returns (first: nat)
    requires Run(ss, es) && n < |es| && es[n].Attempt? && es[n].key == key
    ensures first <= n
    ensures if key in ss[n].counters && Live(ss[n].counters[key], ss[n].now)
            then first < n && es[first].Attempt? && es[first].key == key && ss[n].now < ss[first].now + es[first].window
                 && (Allows(ss[n].counters, key, es[n].limit, ss[n].now) <==> Attempts(es, first, n, key) < es[n].limit)
            else Allows(ss[n].counters, key, es[n].limit, ss[n].now) <==> es[n].limit > 0
  {
    first := n;
    if key in ss[n].counters && Live(ss[n].counters[key], ss[n].now) {
      first := EveryCounterExpires(ss, es, n, key);
    }
  }

  // ------------------------------------------------------- how much one window admits

  predicate Within(t: int, start: int, window: int) { start <= t <= start + window }

  /** Attempts on the key that were allowed in the time interval, among the first `n` events. */
  function AllowedIn(ss: seq<State>, es: seq<Event>, n: nat, key: string, start: int, window: int): nat
    requires n <= |es| <= |ss|
  {
    if n == 0 then 0
    else
      var s, e := ss[n - 1], es[n - 1];
      AllowedIn(ss, es, n - 1, key, start, window) +
      if e.Attempt? && e.key == key && Within(s.now, start, window) && Allows(s.counters, key, e.limit, s.now) then 1 else 0
  }

  function ClearsIn(ss: seq<State>, es: seq<Event>, n: nat, key: string, start: int, window: int): nat
    requires n <= |es| <= |ss|
  {
    if n == 0 then 0
    else ClearsIn(ss, es, n - 1, key, start, window) +
         if es[n - 1] == Clear(key) && Within(ss[n - 1].now, start, window) then 1 else 0
  }

  function Min(a: int, b: int): int { if a <= b then a else b }

  /** What the allowed attempts so far can amount to, given the counter as it stands. */
  ghost predicate Budgeted(s: State, key: string, limit: nat, window: int, start: int, allowed: nat, clears: nat) {
    var full := limit * clears;
    && (s.now < start ==> allowed == 0 && clears == 0)
    && (key in s.counters ==>
          && s.counters[key].count >= 1 && s.counters[key].expiresAt.Some?
          && s.counters[key].expiresAt.value <= s.now + window)
    && (if s.now > start + window then allowed <= full + 2 * limit
        else match Current(s.counters, key, s.now)
          case None => allowed <= full + if s.now <= start then 0 else limit
          case Some(c) =>
            if c.expiresAt.value > start + window
            then allowed <= full + limit + Min(c.count, limit)   // started after the interval began
            else allowed <= full + Min(c.count, limit))          // started before it, or with it
  }

  lemma StepKeepsBudgeted(s: State, e: Event, key: string, limit: nat, window: int, start: int, allowed: nat, clears: nat)
    requires window > 0 && Budgeted(s, key, limit, window, start, allowed, clears)
    requires e.Tick? ==> s.now <= e.to
    requires e.Attempt? && e.key == key ==> e.limit == limit && e.window == window
    ensures
      var inside := Within(s.now, start, window);
      var allowed' := allowed + if e.Attempt? && e.key == key && inside && Allows(s.counters, key, limit, s.now) then 1 else 0;
      var clears' := clears + if e == Clear(key) && inside then 1 else 0;
      Budgeted(Step(s, e), key, limit, window, start, allowed', clears')
  {
    assert limit * (clears + 1) == limit * clears + limit;
    if s.now < start { assert limit * clears == 0; }
  }

  /**
   Any interval of one window's length, both ends included, admits at most twice
   the limit, and one limit more for each time the counter is cleared in it.
   */
  lemma {:induction false} WindowAdmitsTwiceTheLimit(ss: seq<State>, es: seq<Event>, n: nat, key: string, limit: nat, window: int, start: int)
    requires Run(ss, es) && n <= |es| && window > 0
    requires forall i :: 0 <= i < |es| && es[i].Attempt? && es[i].key == key ==> es[i].limit == limit && es[i].window == window
    ensures Budgeted(ss[n], key, limit, window, start, AllowedIn(ss, es, n, key, start, window), ClearsIn(ss, es, n, key, start, window))
    ensures AllowedIn(ss, es, n, key, start, window) <= (2 + ClearsIn(ss, es, n, key, start, window)) * limit
  {
    if n > 0 {
      WindowAdmitsTwiceTheLimit(ss, es, n - 1, key, limit, window, start);
      StepKeepsBudgeted(ss[n - 1], es[n - 1], key, limit, window, start,
                        AllowedIn(ss, es, n - 1, key, start, window), ClearsIn(ss, es, n - 1, key, start, window));
    }
    var clears := ClearsIn(ss, es, n, key, start, window);
    assert (2 + clears) * limit == limit * clears + 2 * limit;
  }
}
