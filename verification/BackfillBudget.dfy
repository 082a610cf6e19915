/**
 The pooled backfill budget: a cap per inbox and window, one grace that doubles
 it, and a rolling gate of a year between graces. First the resolver as one
 call, then any number of backfill runs interleaved statement by statement.
 */
module BackfillBudget {
  import opened Prelude
  import opened UsageMeter
  import opened Paths

  const GRACE_ROLLING_WINDOW_MS := 365 * 24 * 60 * 60 * 1000

  datatype Grant = Grant(inbox: string, workspace: string)

  datatype Budget = Budget(effectiveBudget: int, usingGrace: bool, blockedAwaitingWindow: bool)

  datatype Args = Args(inbox: string, workspace: string, cap: nat, windowStart: int)

  function KeyOf(a: Args): MeterKey { MeterKey(a.inbox, BACKFILL, a.windowStart) }

  function GraceUsed(meters: Meters, key: MeterKey): bool { key in meters && meters[key].graceUsed }

  function Max(a: int, b: int): int { if a >= b then a else b }

  /** The rolling gate: some backfill row of the inbox was claimed within the last year. */
  ghost predicate RecentClaim(meters: Meters, inbox: string, now: int) {
    exists k :: k in meters && k.inbox == inbox && k.kind == BACKFILL && ClaimedSince(meters[k], now - GRACE_ROLLING_WINDOW_MS)
  }

  predicate ClaimedSince(m: Meter, since: int) {
    m.graceClaimedAt.Some? && m.graceClaimedAt.value >= since
  }

  function ClaimGrace(meters: Meters, key: MeterKey, now: int): Meters {
    if key in meters && !meters[key].graceUsed
    then meters[key := meters[key].(graceUsed := true, graceClaimedAt := Some(now))] else meters
  }

  /** The documented outcome of one whole resolve. */
  ghost predicate Resolved(meters: Meters, grants: set<Grant>, a: Args, now: int,
                           meters': Meters, grants': set<Grant>, b: Budget)
  {
    var key, grant := KeyOf(a), Grant(a.inbox, a.workspace);
    var used, grace := Used(meters, key), GraceUsed(meters, key);
    var ceiling := if grace then 2 * a.cap else a.cap;
    if used < ceiling then
      meters' == meters && grants' == grants + {grant} && b == Budget(ceiling - used, grace, false)
    else if grace then meters' == meters && grants' == grants && b == Budget(0, true, true)
    else if grant !in grants then meters' == meters && grants' == grants && b == Budget(0, false, false)
    else if RecentClaim(meters, a.inbox, now) || key !in meters then
      meters' == meters && grants' == grants && b == Budget(0, false, true)
    else
      && grants' == grants && b == Budget(Max(0, 2 * a.cap - used), true, false)
      && meters'.Keys == meters.Keys
      && meters'[key] == Meter(used, true, Some(now))
      && forall k :: k in meters && k != key ==> meters'[k] == meters[k]
  }

  class BudgetStore {
    var meters: Meters
    var grants: set<Grant>

    constructor ()
      ensures meters == map[] && grants == {}
    {
      meters, grants := map[], {};
    }

    /** True exactly when the rolling gate would refuse a claim at `now`. */
    method GetBackfillGraceUsed(inbox: string, now: int) returns (b: bool)
      ensures b <==> RecentClaim(meters, inbox, now)
      ensures b <==> exists k :: k in meters && k.inbox == inbox && k.kind == BACKFILL && meters[k].graceClaimedAt.Some?
                                 && now - meters[k].graceClaimedAt.value <= 365 * 24 * 60 * 60 * 1000
    {
      assert forall k :: k in meters ==>
        (ClaimedSince(meters[k], now - GRACE_ROLLING_WINDOW_MS) <==>
           meters[k].graceClaimedAt.Some? && now - meters[k].graceClaimedAt.value <= 365 * 24 * 60 * 60 * 1000);
      var todo := meters.Keys;
      while todo != {}
        invariant todo <= meters.Keys
        invariant forall k :: k in meters && k !in todo && k.inbox == inbox && k.kind == BACKFILL
                    ==> !ClaimedSince(meters[k], now - GRACE_ROLLING_WINDOW_MS)
      {
        var k :| k in todo;
        if k.inbox == inbox && k.kind == BACKFILL && ClaimedSince(meters[k], now - GRACE_ROLLING_WINDOW_MS) {
          return true;
        }
        todo := todo - {k};
      }
      b := false;
    }

    method EnsureBackfillGrant(inbox: string, workspace: string)
      modifies this`grants
      ensures grants == old(grants) + {Grant(inbox, workspace)}
    {
      grants := grants + {Grant(inbox, workspace)};
    }

    method ResolveBackfillBudget(a: Args, now: int) returns (b: Budget)
      modifies this
      ensures Resolved(old(meters), old(grants), a, now, meters, grants, b)
    {
      var key := KeyOf(a);
      var used := if key in meters then meters[key].used else 0;
      var graceUsed := if key in meters then meters[key].graceUsed else false;
      var ceiling := if graceUsed then 2 * a.cap else a.cap;
      var remaining := Max(0, ceiling - used);
      if remaining > 0 {
        EnsureBackfillGrant(a.inbox, a.workspace);
        return Budget(remaining, graceUsed, false);
      }
      if !graceUsed {
        if Grant(a.inbox, a.workspace) in grants {
          var recent := GetBackfillGraceUsed(a.inbox, now);
          if recent { return Budget(0, false, true); }
          if key in meters && !meters[key].graceUsed {
            meters := ClaimGrace(meters, key, now);
            return Budget(Max(0, 2 * a.cap - used), true, false);
          }
          return Budget(0, false, true);
        }
        return Budget(0, false, false);
      }
      return Budget(0, true, true);
    }
  }

  // --------------------------------------------------- interleaved backfill runs

  /** Where a backfill run stands; every phase but the last is inside the resolve. */
  datatype Phase =
    | Granting(budget: Budget)             // about to ensure the grant
    | AtBaseCap(used: int)                 // about to look for the grant
    | AtGate(used: int, now: int)          // about to look for a recent claim
    | Claiming(used: int, now: int)        // about to flip the grace flag
    | Importing(budget: Budget, left: int) // resolved; may still record `left`

  datatype Slot = Idle | Active(args: Args, phase: Phase)

  datatype State = State(meters: Meters, grants: set<Grant>, now: int, slots: seq<Slot>)

  datatype Event =
    | Tick(to: int)
    | Begin(i: nat, args: Args)   // the run reads the meter
    | Advance(i: nat)             // its next statement
    | Import(i: nat, delta: int)  // it records part of its budget
    | End(i: nat)

  predicate InSlot(s: State, i: nat) { i < |s.slots| && s.slots[i].Active? }

  predicate Enabled(s: State, e: Event) {
    match e
    case Tick(to) => s.now <= to
    case Begin(i, _) => i < |s.slots| && s.slots[i].Idle?
    case Advance(i) => InSlot(s, i) && !s.slots[i].phase.Importing?
    case Import(i, delta) => InSlot(s, i) && s.slots[i].phase.Importing? && 0 < delta <= s.slots[i].phase.left
    case End(i) => InSlot(s, i) && s.slots[i].phase.Importing?
  }

  function AfterMeter(meters: Meters, a: Args): Phase {
    var used, grace := Used(meters, KeyOf(a)), GraceUsed(meters, KeyOf(a));
    var remaining := Max(0, (if grace then 2 * a.cap else a.cap) - used);
    if remaining > 0 then Granting(Budget(remaining, grace, false))
    else if !grace then AtBaseCap(used)
    else Resolve(Budget(0, true, true))
  }

  function Resolve(b: Budget): Phase { Importing(b, b.effectiveBudget) }

  ghost function NextPhase(s: State, a: Args, p: Phase): Phase
    requires !p.Importing?
  {
    match p
    case Granting(b) => Resolve(b)
    case AtBaseCap(used) =>
      if Grant(a.inbox, a.workspace) in s.grants then AtGate(used, s.now) else Resolve(Budget(0, false, false))
    case AtGate(used, now) =>
      if RecentClaim(s.meters, a.inbox, now) then Resolve(Budget(0, false, true)) else Claiming(used, now)
    case Claiming(used, now) =>
      if WinsGrace(s.meters, a) then Resolve(Budget(Max(0, 2 * a.cap - used), true, false))
      else Resolve(Budget(0, false, true))
  }

  predicate WinsGrace(meters: Meters, a: Args) { KeyOf(a) in meters && !meters[KeyOf(a)].graceUsed }

  ghost function Step(s: State, e: Event): State
    requires Enabled(s, e)
  {
    match e
    case Tick(to) => s.(now := to)
    case Begin(i, a) => s.(slots := s.slots[i := Active(a, AfterMeter(s.meters, a))])
    case Advance(i) =>
      var a, p := s.slots[i].args, s.slots[i].phase;
      State(if p.Claiming? then ClaimGrace(s.meters, KeyOf(a), p.now) else s.meters,
            if p.Granting? then s.grants + {Grant(a.inbox, a.workspace)} else s.grants,
            s.now,
            s.slots[i := Active(a, NextPhase(s, a, p))])
    case Import(i, delta) =>
      var a, p := s.slots[i].args, s.slots[i].phase;
      s.(meters := AddTo(s.meters, KeyOf(a), delta), slots := s.slots[i := Active(a, p.(left := p.left - delta))])
    case End(i) => s.(slots := s.slots[i := Idle])
  }

  ghost predicate Run(ss: seq<State>, es: seq<Event>) {
    && |ss| == |es| + 1
    && ss[0].meters == map[] && ss[0].grants == {}
    && (forall i :: 0 <= i < |ss[0].slots| ==> ss[0].slots[i].Idle?)
    && forall i {:trigger es[i]} :: 0 <= i < |es| ==> Enabled(ss[i], es[i]) && ss[i + 1] == Step(ss[i], es[i])
  }

  /** A resolve nobody interrupts ends within four more statements with exactly the documented outcome. */
  ghost function Finish(s: State, i: nat, fuel: nat): State
    requires InSlot(s, i)
    decreases fuel
  {
    if fuel == 0 || s.slots[i].phase.Importing? then s else Finish(Step(s, Advance(i)), i, fuel - 1)
  }

  lemma UninterruptedResolve(s: State, i: nat, a: Args)
    requires Enabled(s, Begin(i, a))
    ensures
      var t := Finish(Step(s, Begin(i, a)), i, 3);
      && t.slots[i].phase.Importing? && t.slots[i].phase.left == t.slots[i].phase.budget.effectiveBudget
      && Resolved(s.meters, s.grants, a, s.now, t.meters, t.grants, t.slots[i].phase.budget)
  {
    var s1 := Step(s, Begin(i, a));
    if !s1.slots[i].phase.Importing? {
      var s2 := Step(s1, Advance(i));
      if !s2.slots[i].phase.Importing? {
        var s3 := Step(s2, Advance(i));
        if !s3.slots[i].phase.Importing? {
          assert s3.slots[i].phase.Claiming?;
        }
      }
    }
  }

  // ------------------------------------------------------------- budget bounds

  predicate For(slot: Slot, key: MeterKey) { slot.Active? && KeyOf(slot.args) == key }

  /** The most a run in flight for `key` can still add, whatever the others do. */
  function Reserve(slot: Slot, key: MeterKey): int {
    if !For(slot, key) then 0
    else match slot.phase
      case Granting(b) => b.effectiveBudget
      case AtBaseCap(used) => Max(0, 2 * slot.args.cap - used)
      case AtGate(used, _) => Max(0, 2 * slot.args.cap - used)
      case Claiming(used, _) => Max(0, 2 * slot.args.cap - used)
      case Importing(_, left) => left
  }

  function Reserves(slots: seq<Slot>, key: MeterKey): int {
    if slots == [] then 0 else Reserve(slots[0], key) + Reserves(slots[1..], key)
  }

  function InFlight(slots: seq<Slot>, key: MeterKey): nat {
    if slots == [] then 0 else (if For(slots[0], key) then 1 else 0) + InFlight(slots[1..], key)
  }

  lemma {:induction false} ReservesUpdate(slots: seq<Slot>, i: nat, slot: Slot, key: MeterKey)
    requires i < |slots|
    ensures Reserves(slots[i := slot], key) == Reserves(slots, key) - Reserve(slots[i], key) + Reserve(slot, key)
    ensures InFlight(slots[i := slot], key) ==
              InFlight(slots, key) - (if For(slots[i], key) then 1 else 0) + (if For(slot, key) then 1 else 0)
  {
    if i == 0 {
      assert slots[i := slot][1..] == slots[1..];
    } else {
      assert slots[i := slot][1..] == slots[1..][i - 1 := slot];
      ReservesUpdate(slots[1..], i - 1, slot, key);
    }
  }

  /** Each run's reserve is at most twice the cap. */
  ghost predicate SlotsBounded(slots: seq<Slot>, key: MeterKey, cap: nat) {
    forall i :: 0 <= i < |slots| ==> For(slots[i], key) ==>
      slots[i].args.cap == cap && 0 <= Reserve(slots[i], key) <= 2 * cap
  }

  lemma {:induction false} ReservesBound(slots: seq<Slot>, key: MeterKey, cap: nat)
    requires SlotsBounded(slots, key, cap)
    ensures 0 <= Reserves(slots, key) <= InFlight(slots, key) * (2 * cap)
  {
    if slots != [] {
      var rest := slots[1..];
      assert forall i :: 0 <= i < |rest| ==> rest[i] == slots[i + 1];
      ReservesBound(rest, key, cap);
      if For(slots[0], key) {
        assert 0 <= Reserve(slots[0], key) <= 2 * cap;
        OneMore(InFlight(rest, key), InFlight(slots, key), 2 * cap);
      }
    }
  }

  /** Every run in flight for the key was given this cap. */
  ghost predicate SameCap(s: State, key: MeterKey, cap: nat) {
    forall i :: 0 <= i < |s.slots| && For(s.slots[i], key) ==> s.slots[i].args.cap == cap
  }

  /** And there are at most `k` of them. */
  ghost predicate Fits(s: State, key: MeterKey, cap: nat, k: nat) {
    InFlight(s.slots, key) <= k && SameCap(s, key, cap)
  }

  ghost predicate Bounded(s: State, key: MeterKey, cap: nat, k: nat) {
    && 0 <= Used(s.meters, key)
    && SlotsBounded(s.slots, key, cap)
    && Used(s.meters, key) + Reserves(s.slots, key) <= k * (2 * cap)
  }

  /** What one statement adds to the meter comes out of its own run's reserve; only a meter read reserves anew. */
  lemma ActorStaysBounded(s: State, e: Event, key: MeterKey, cap: nat)
    requires Enabled(s, e) && !e.Tick? && 0 <= Used(s.meters, key) && SlotsBounded(s.slots, key, cap)
    requires SameCap(Step(s, e), key, cap)
    ensures
      var t := Step(s, e);
      && 0 <= Reserve(t.slots[e.i], key) <= 2 * cap
      && 0 <= Used(t.meters, key)
      && (For(t.slots[e.i], key) ==> t.slots[e.i].args.cap == cap)
      && (if e.Begin? then Used(t.meters, key) == Used(s.meters, key)
          else Used(t.meters, key) + Reserve(t.slots[e.i], key) <= Used(s.meters, key) + Reserve(s.slots[e.i], key))
  {
    assert For(s.slots[e.i], key) ==> 0 <= Reserve(s.slots[e.i], key) <= 2 * cap;
  }

  lemma StepKeepsBounded(s: State, e: Event, key: MeterKey, cap: nat, k: nat)
    requires Enabled(s, e) && Bounded(s, key, cap, k)
    requires Fits(s, key, cap, k) && Fits(Step(s, e), key, cap, k)
    ensures Bounded(Step(s, e), key, cap, k)
  {
    if !e.Tick? {
      var t := Step(s, e);
      ActorStaysBounded(s, e, key, cap);
      assert t.slots == s.slots[e.i := t.slots[e.i]];
      ReservesUpdate(s.slots, e.i, t.slots[e.i], key);
      ReservesBound(s.slots, key, cap);
      if e.Begin? && For(t.slots[e.i], key) {
        // at most k - 1 others are in flight, each reserving at most 2 * cap
        OneMore(InFlight(s.slots, key), k, 2 * cap);
      }
    }
  }

  lemma OneMore(n: nat, k: nat, c: nat)
    requires n + 1 <= k
    ensures n * c + c <= k * c
  {
    assert n * c + c == (n + 1) * c;
  }

  /**
   With at most `k` runs in flight for the key, counted from their meter read to
   their end, the meter never shows more than k times twice the cap.
   */
  lemma {:induction false} ConcurrentRunsAreBounded(ss: seq<State>, es: seq<Event>, n: nat, key: MeterKey, cap: nat, k: nat)
    requires Run(ss, es) && n < |ss|
    requires forall m :: 0 <= m <= n ==> Fits(ss[m], key, cap, k)
    ensures Bounded(ss[n], key, cap, k)
    ensures Used(ss[n].meters, key) <= k * (2 * cap)
  {
    if n == 0 {
      assert SlotsBounded(ss[0].slots, key, cap);
      AllIdle(ss[0].slots, key);
      assert k * (2 * cap) >= 0;
    } else {
      ConcurrentRunsAreBounded(ss, es, n - 1, key, cap, k);
      assert ss[n] == Step(ss[n - 1], es[n - 1]);
      assert Fits(ss[n - 1], key, cap, k) && Fits(ss[n], key, cap, k);
      StepKeepsBounded(ss[n - 1], es[n - 1], key, cap, k);
    }
    ReservesBound(ss[n].slots, key, cap);
  }

  lemma {:induction false} AllIdle(slots: seq<Slot>, key: MeterKey)
    requires forall i :: 0 <= i < |slots| ==> slots[i].Idle?
    ensures Reserves(slots, key) == 0 && InFlight(slots, key) == 0
  {
    if slots != [] { AllIdle(slots[1..], key); }
  }

  // ------------------------------------------------------------ one run at a time

  /** Two slots are never in flight for the key together. */
  ghost predicate Alone(s: State, key: MeterKey, cap: nat) {
    && (forall i, j :: 0 <= i < |s.slots| && 0 <= j < |s.slots| && For(s.slots[i], key) && For(s.slots[j], key) ==> i == j)
    && SameCap(s, key, cap)
  }

  /** What a lone run may still add under the ceiling in force, given what it has read. */
  predicate LoneSlot(meters: Meters, key: MeterKey, slot: Slot) {
    For(slot, key) ==>
      var used, grace := Used(meters, key), GraceUsed(meters, key);
      var ceiling := if grace then 2 * slot.args.cap else slot.args.cap;
      match slot.phase
      case Granting(b) => 0 <= b.effectiveBudget && used + b.effectiveBudget <= ceiling
      case AtBaseCap(u) => u == used && !grace
      case AtGate(u, _) => u == used && !grace
      case Claiming(u, _) => u == used && !grace
      case Importing(b, left) => 0 <= left && used + left <= ceiling
  }

  ghost predicate Lone(s: State, key: MeterKey, cap: nat) {
    && 0 <= Used(s.meters, key) <= (if GraceUsed(s.meters, key) then 2 * cap else cap)
    && forall i :: 0 <= i < |s.slots| ==> LoneSlot(s.meters, key, s.slots[i])
  }

  lemma StepKeepsLone(s: State, e: Event, key: MeterKey, cap: nat)
    requires Enabled(s, e) && Lone(s, key, cap)
    requires Alone(s, key, cap) && Alone(Step(s, e), key, cap)
    ensures Lone(Step(s, e), key, cap)
  {
    if !e.Tick? {
      var t := Step(s, e);
      ActorStaysLone(s, e, key, cap);
      forall i | 0 <= i < |t.slots| && i != e.i ensures LoneSlot(t.meters, key, t.slots[i]) {
        assert LoneSlot(s.meters, key, s.slots[i]);
        if For(s.slots[i], key) { OthersLeaveMeter(s, e, key); }
      }
    }
  }

  /** A step of a slot that is not in flight for the key leaves the key's meter alone. */
  lemma OthersLeaveMeter(s: State, e: Event, key: MeterKey)
    requires Enabled(s, e) && !e.Tick? && !(For(s.slots[e.i], key) && For(Step(s, e).slots[e.i], key))
    ensures Used(Step(s, e).meters, key) == Used(s.meters, key)
    ensures GraceUsed(Step(s, e).meters, key) == GraceUsed(s.meters, key)
  {
  }

  /** The slot that moves, and the meter it may have moved. */
  lemma ActorStaysLone(s: State, e: Event, key: MeterKey, cap: nat)
    requires Enabled(s, e) && !e.Tick? && Lone(s, key, cap)
    requires SameCap(s, key, cap) && SameCap(Step(s, e), key, cap)
    ensures 0 <= Used(Step(s, e).meters, key) <= (if GraceUsed(Step(s, e).meters, key) then 2 * cap else cap)
    ensures LoneSlot(Step(s, e).meters, key, Step(s, e).slots[e.i])
  {
    assert LoneSlot(s.meters, key, s.slots[e.i]);
  }

  /** Run one at a time, the meter stays at the cap until the grace is claimed and at twice the cap after. */
  lemma {:induction false} SerialRunsAreBounded(ss: seq<State>, es: seq<Event>, n: nat, key: MeterKey, cap: nat)
    requires Run(ss, es) && n < |ss|
    requires forall m :: 0 <= m <= n ==> Alone(ss[m], key, cap)
    ensures Lone(ss[n], key, cap)
    ensures Used(ss[n].meters, key) <= if GraceUsed(ss[n].meters, key) then 2 * cap else cap
  {
    if n > 0 {
      SerialRunsAreBounded(ss, es, n - 1, key, cap);
      assert ss[n] == Step(ss[n - 1], es[n - 1]);
      assert Alone(ss[n - 1], key, cap) && Alone(ss[n], key, cap);
      StepKeepsLone(ss[n - 1], es[n - 1], key, cap);
    }
  }

  // -------------------------------------------------------------- grace claims

  /** Step `i` flips the grace flag of `key`, stamping it `at`. */
  ghost predicate ClaimsAt(ss: seq<State>, es: seq<Event>, i: nat, key: MeterKey, at: int)
    requires Run(ss, es)
  {
    && i < |es| && es[i].Advance?
    && var slot := ss[i].slots[es[i].i];
       slot.phase.Claiming? && slot.phase.now == at && KeyOf(slot.args) == key && WinsGrace(ss[i].meters, slot.args)
  }

  predicate StampedAt(meters: Meters, key: MeterKey, at: int) {
    key in meters && meters[key].graceUsed && meters[key].graceClaimedAt == Some(at)
  }

  /** A stamp is never cleared or rewritten. */
  lemma {:induction false} StampStays(ss: seq<State>, es: seq<Event>, m: nat, n: nat, key: MeterKey, at: int)
    requires Run(ss, es) && m <= n < |ss| && StampedAt(ss[m].meters, key, at)
    ensures StampedAt(ss[n].meters, key, at)
    decreases n - m
  {
    if m < n {
      StampStays(ss, es, m, n - 1, key, at);
      assert Enabled(ss[n - 1], es[n - 1]);
    }
  }

  /** Under any interleaving of resolvers, one inbox and window grants its grace at most once. */
  lemma AtMostOneClaim(ss: seq<State>, es: seq<Event>, i: nat, j: nat, key: MeterKey, at: int, at': int)
    requires Run(ss, es) && ClaimsAt(ss, es, i, key, at) && ClaimsAt(ss, es, j, key, at')
    ensures i == j
  {
    if i < j { StampStays(ss, es, i + 1, j, key, at); }
    if j < i { StampStays(ss, es, j + 1, i, key, at'); }
  }

  // ------------------------------------------------- one grace in a rolling year

  /** The event moves slot `x` on. */
  predicate Moves(e: Event, x: nat) { !e.Tick? && e.i == x }

  /** Step `g` is the gate look of the resolve that claims at step `j`. */
  ghost predicate GateLook(ss: seq<State>, es: seq<Event>, g: nat, j: nat)
    requires Run(ss, es)
  {
    && g < j < |es| && es[j].Advance? && es[g] == es[j]
    && ss[g].slots[es[g].i].phase.AtGate?
    && forall m :: g < m < j ==> !Moves(es[m], es[j].i)
  }

  lemma {:induction false} SlotWaits(ss: seq<State>, es: seq<Event>, m: nat, n: nat, x: nat)
    requires Run(ss, es) && m <= n < |ss| && x < |ss[m].slots|
    requires forall k :: m <= k < n ==> !Moves(es[k], x)
    ensures x < |ss[n].slots| && ss[n].slots[x] == ss[m].slots[x]
    decreases n - m
  {
    if m < n {
      SlotWaits(ss, es, m, n - 1, x);
      assert Enabled(ss[n - 1], es[n - 1]);
    }
  }

  /** A slot about to claim passed the gate in its last step. */
  lemma {:induction false} ClaimLooked(ss: seq<State>, es: seq<Event>, n: nat, x: nat) returns (g: nat)
    requires Run(ss, es) && n < |ss| && InSlot(ss[n], x) && ss[n].slots[x].phase.Claiming?
    ensures g < n && es[g] == Advance(x) && InSlot(ss[g], x) && ss[g].slots[x].phase.AtGate?
    ensures forall m :: g < m < n ==> !Moves(es[m], x)
  {
    assert n > 0;
    assert Enabled(ss[n - 1], es[n - 1]);
    if Moves(es[n - 1], x) { g := n - 1; } else { g := ClaimLooked(ss, es, n - 1, x); }
  }

  /** Every claim has a gate look. */
  lemma EveryClaimLooked(ss: seq<State>, es: seq<Event>, j: nat, key: MeterKey, at: int) returns (g: nat)
    requires Run(ss, es) && ClaimsAt(ss, es, j, key, at)
    ensures GateLook(ss, es, g, j)
  {
    assert Enabled(ss[j], es[j]);
    g := ClaimLooked(ss, es, j, es[j].i);
  }

  /** The gate look found no claim of the inbox within a year of the clock reading the claim will be stamped with. */
  lemma GateWasOpen(ss: seq<State>, es: seq<Event>, g: nat, j: nat, key: MeterKey, at: int)
    requires Run(ss, es) && ClaimsAt(ss, es, j, key, at) && GateLook(ss, es, g, j)
    ensures !RecentClaim(ss[g].meters, key.inbox, at)
    ensures ss[g].slots[es[j].i].phase.now == at
  {
    assert Enabled(ss[g], es[g]) && ss[g + 1] == Step(ss[g], es[g]);
    SlotWaits(ss, es, g + 1, j, es[j].i);
  }

  /** A clock reading held by a run. */
  function Reading(slot: Slot, otherwise: int): int {
    if slot.Active? && slot.phase.AtGate? then slot.phase.now
    else if slot.Active? && slot.phase.Claiming? then slot.phase.now
    else otherwise
  }

  /** No run holds a clock reading from the future. */
  lemma {:induction false} ReadingsArePast(ss: seq<State>, es: seq<Event>, n: nat, x: nat)
    requires Run(ss, es) && n < |ss| && x < |ss[n].slots|
    ensures Reading(ss[n].slots[x], ss[n].now) <= ss[n].now
  {
    if n > 0 {
      assert Enabled(ss[n - 1], es[n - 1]);
      ReadingsArePast(ss, es, n - 1, x);
    }
  }

  lemma {:induction false} ClockAdvances(ss: seq<State>, es: seq<Event>, m: nat, n: nat)
    requires Run(ss, es) && m <= n < |ss|
    ensures ss[m].now <= ss[n].now
    decreases n - m
  {
    if m < n {
      ClockAdvances(ss, es, m, n - 1);
      assert Enabled(ss[n - 1], es[n - 1]);
    }
  }

  /**
   Two claims of one inbox, whatever else overlaps them and across all windows:
   if the first was made before the second's gate look, they are more than a
   year apart; and if the first was stamped within a year of being made, they are
   within a year of each other exactly when the second had looked before it.
   */
  lemma YearApartIffLookedAfter(ss: seq<State>, es: seq<Event>, i: nat, g: nat, j: nat,
                                first: MeterKey, second: MeterKey, at: int, at': int)
    requires Run(ss, es) && i < j && ClaimsAt(ss, es, i, first, at) && ClaimsAt(ss, es, j, second, at')
    requires first.inbox == second.inbox && GateLook(ss, es, g, j)
    ensures i < g ==> at' - at > 365 * 24 * 60 * 60 * 1000
    ensures ss[i].now - at <= 365 * 24 * 60 * 60 * 1000 ==>
              (at' - at <= 365 * 24 * 60 * 60 * 1000 <==> g < i)
  {
    GateWasOpen(ss, es, g, j, second, at');
    if i < g {
      StampStays(ss, es, i + 1, g, first, at);
      assert !ClaimedSince(ss[g].meters[first], at' - GRACE_ROLLING_WINDOW_MS);
    } else if g < i {
      ReadingsArePast(ss, es, g, es[j].i);
      ClockAdvances(ss, es, g, i);
    }
  }

  /** Every stamp in the tables was put there by a claim. */
  lemma {:induction false} StampWasClaimed(ss: seq<State>, es: seq<Event>, n: nat, key: MeterKey) returns (i: nat)
    requires Run(ss, es) && n < |ss| && key in ss[n].meters && ss[n].meters[key].graceClaimedAt.Some?
    ensures i < n && ClaimsAt(ss, es, i, key, ss[n].meters[key].graceClaimedAt.value)
  {
    assert n > 0;
    var s, e := ss[n - 1], es[n - 1];
    assert Enabled(s, e) && ss[n] == Step(s, e);
    if key in s.meters && s.meters[key].graceClaimedAt == ss[n].meters[key].graceClaimedAt
       && !(e.Advance? && s.slots[e.i].phase.Claiming? && KeyOf(s.slots[e.i].args) == key && WinsGrace(s.meters, s.slots[e.i].args))
    {
      i := StampWasClaimed(ss, es, n - 1, key);
    } else {
      i := n - 1;
    }
  }

  /**
   In every reachable state the gate refuses an inbox exactly when that inbox, in
   whatever window, claimed its grace in an earlier step and the stamp is at most
   365 days before the clock reading; other inboxes never count.
   */
  lemma RefusesIffClaimed(ss: seq<State>, es: seq<Event>, n: nat, inbox: string, now: int)
    requires Run(ss, es) && n < |ss|
    ensures RecentClaim(ss[n].meters, inbox, now) <==>
            exists i: nat, key: MeterKey, at :: i < n && key.inbox == inbox && ClaimsAt(ss, es, i, key, at)
                                      && now - at <= 365 * 24 * 60 * 60 * 1000
  {
    if RecentClaim(ss[n].meters, inbox, now) {
      var key :| key in ss[n].meters && key.inbox == inbox && key.kind == BACKFILL
                 && ClaimedSince(ss[n].meters[key], now - GRACE_ROLLING_WINDOW_MS);
      var i := StampWasClaimed(ss, es, n, key);
      assert now - ss[n].meters[key].graceClaimedAt.value <= 365 * 24 * 60 * 60 * 1000;
    }
    forall i: nat, key: MeterKey, at | i < n && key.inbox == inbox && ClaimsAt(ss, es, i, key, at)
                                       && now - at <= 365 * 24 * 60 * 60 * 1000
      ensures RecentClaim(ss[n].meters, inbox, now)
    {
      StampStays(ss, es, i + 1, n, key, at);
      assert ClaimedSince(ss[n].meters[key], now - GRACE_ROLLING_WINDOW_MS);
    }
  }

  /** The answer depends on this inbox's backfill rows alone. */
  lemma GateIsPerInbox(a: Meters, b: Meters, inbox: string, now: int)
    requires forall k: MeterKey :: k.inbox == inbox && k.kind == BACKFILL ==> (k in a <==> k in b)
    requires forall k: MeterKey :: k.inbox == inbox && k.kind == BACKFILL && k in a && k in b ==> a[k] == b[k]
    ensures RecentClaim(a, inbox, now) == RecentClaim(b, inbox, now)
  {
    if k :| k in a && k.inbox == inbox && k.kind == BACKFILL && ClaimedSince(a[k], now - GRACE_ROLLING_WINDOW_MS) {
      assert k in b && ClaimedSince(b[k], now - GRACE_ROLLING_WINDOW_MS);
    }
    if k :| k in b && k.inbox == inbox && k.kind == BACKFILL && ClaimedSince(b[k], now - GRACE_ROLLING_WINDOW_MS) {
      assert k in a && ClaimedSince(a[k], now - GRACE_ROLLING_WINDOW_MS);
    }
  }

  predicate Resolving(slot: Slot, inbox: string) {
    slot.Active? && slot.args.inbox == inbox && !slot.phase.Importing?
  }

  /** Two resolves of the inbox do not overlap in this state. */
  ghost predicate NoOverlap(s: State, inbox: string) {
    forall i, j :: 0 <= i < |s.slots| && 0 <= j < |s.slots| && Resolving(s.slots[i], inbox) && Resolving(s.slots[j], inbox)
      ==> i == j
  }

  /**
   When no other resolve of the inbox is in progress as the first claim is made,
   every later claim is more than a year after it, across all windows.
   */
  lemma ClaimsAreAYearApart(ss: seq<State>, es: seq<Event>, i: nat, j: nat, first: MeterKey, second: MeterKey, at: int, at': int)
    requires Run(ss, es) && i < j && ClaimsAt(ss, es, i, first, at) && ClaimsAt(ss, es, j, second, at')
    requires first.inbox == second.inbox && NoOverlap(ss[i], first.inbox)
    ensures at' - at > 365 * 24 * 60 * 60 * 1000
  {
    var g := EveryClaimLooked(ss, es, j, second, at');
    assert Enabled(ss[i], es[i]) && Enabled(ss[g], es[g]) && Enabled(ss[j], es[j]);
    if g < i {
      assert !Moves(es[i], es[j].i);
      SlotWaits(ss, es, g + 1, i, es[j].i);
      SlotWaits(ss, es, i, j, es[j].i);
      assert Resolving(ss[i].slots[es[i].i], first.inbox) && Resolving(ss[i].slots[es[j].i], first.inbox);
    }
    YearApartIffLookedAfter(ss, es, i, g, j, first, second, at, at');
  }

  /**
   Without that condition two windows can claim at once: two resolves that both
   pass the gate before either claims are both granted the grace.
   */
  lemma OverlappingResolvesBothClaim(s: State, i: nat, j: nat)
    requires i < |s.slots| && j < |s.slots| && i != j
    requires s.slots[i].Active? && s.slots[i].phase.AtGate? && s.slots[j].Active? && s.slots[j].phase.AtGate?
    requires s.slots[i].args.inbox == s.slots[j].args.inbox
    requires s.slots[i].args.windowStart != s.slots[j].args.windowStart
    requires WinsGrace(s.meters, s.slots[i].args) && WinsGrace(s.meters, s.slots[j].args)
    requires !RecentClaim(s.meters, s.slots[i].args.inbox, s.slots[i].phase.now)
    requires !RecentClaim(s.meters, s.slots[j].args.inbox, s.slots[j].phase.now)
    ensures
      var t := Step(Step(Step(Step(s, Advance(i)), Advance(j)), Advance(i)), Advance(j));
      && StampedAt(t.meters, KeyOf(s.slots[i].args), s.slots[i].phase.now)
      && StampedAt(t.meters, KeyOf(s.slots[j].args), s.slots[j].phase.now)
  {
    var s2 := Step(Step(s, Advance(i)), Advance(j));
    assert s2.slots[i].phase.Claiming? && s2.slots[j].phase.Claiming?;
  }

  // ------------------------------------------ a run in which two windows claim together

  /** A step in which every resolve begins in the window its clock shows, here as the window opens. */
  ghost predicate OnTheClock(s: State, e: Event, t: State) {
    Enabled(s, e) && t == Step(s, e) && (e.Begin? ==> e.args.windowStart == s.now)
  }

  /** Use the whole cap of a window, begin again, and pass the gate: all but the claim itself. */
  function DrainAndLook(x: nat, a: Args): seq<Event> {
    [Begin(x, a), Advance(x), Import(x, a.cap), End(x), Begin(x, a), Advance(x), Advance(x)]
  }

  function Drained(s: State, x: nat, a: Args): State
    requires x < |s.slots|
  {
    State(s.meters[KeyOf(a) := Meter(a.cap, false, None)], s.grants + {Grant(a.inbox, a.workspace)}, s.now,
          s.slots[x := Active(a, Claiming(a.cap, s.now))])
  }

  lemma DrainPath(s: State, x: nat, a: Args) returns (ss: seq<State>)
    requires x < |s.slots| && s.slots[x].Idle? && a.cap > 0 && KeyOf(a) !in s.meters && a.windowStart == s.now
    requires forall k :: k in s.meters ==> s.meters[k].graceClaimedAt == None
    ensures Path(OnTheClock, ss, DrainAndLook(x, a))
    ensures ss[0] == s && ss[7] == Drained(s, x, a)
  {
    var s2 := Granted(s, x, a);
    var s1 := s.(slots := s.slots[x := Active(a, Granting(Budget(a.cap, false, false)))]);
    var s3 := Spent(s, x, a, Active(a, Importing(Budget(a.cap, false, false), 0)));
    var s4 := Spent(s, x, a, Idle);
    var s5 := Spent(s, x, a, Active(a, AtBaseCap(a.cap)));
    var s6 := Spent(s, x, a, Active(a, AtGate(a.cap, s.now)));
    assert Step(s, Begin(x, a)) == s1 && Step(s1, Advance(x)) == s2;
    ImportsAll(s, x, a);
    LooksAgain(s, x, a);
    ss := [s, s1, s2, s3, s4, s5, s6, Drained(s, x, a)];
  }

  /** The first run has been granted the whole cap. */
  function Granted(s: State, x: nat, a: Args): State
    requires x < |s.slots|
  {
    s.(grants := s.grants + {Grant(a.inbox, a.workspace)},
       slots := s.slots[x := Active(a, Importing(Budget(a.cap, false, false), a.cap))])
  }

  /** The whole cap has been recorded; slot `x` stands at `slot`. */
  function Spent(s: State, x: nat, a: Args, slot: Slot): State
    requires x < |s.slots|
  {
    State(s.meters[KeyOf(a) := Meter(a.cap, false, None)], s.grants + {Grant(a.inbox, a.workspace)}, s.now,
          s.slots[x := slot])
  }

  lemma ImportsAll(s: State, x: nat, a: Args)
    requires x < |s.slots| && a.cap > 0 && KeyOf(a) !in s.meters
    ensures
      var done := Spent(s, x, a, Active(a, Importing(Budget(a.cap, false, false), 0)));
      && OnTheClock(Granted(s, x, a), Import(x, a.cap), done) && OnTheClock(done, End(x), Spent(s, x, a, Idle))
  {
    var g := Granted(s, x, a);
    var done := Spent(s, x, a, Active(a, Importing(Budget(a.cap, false, false), 0)));
    assert Step(g, Import(x, a.cap)) == done && Step(done, End(x)) == Spent(s, x, a, Idle);
  }

  lemma LooksAgain(s: State, x: nat, a: Args)
    requires x < |s.slots| && a.cap > 0 && a.windowStart == s.now
    requires forall k :: k in s.meters ==> s.meters[k].graceClaimedAt == None
    ensures
      var s5, s6 := Spent(s, x, a, Active(a, AtBaseCap(a.cap))), Spent(s, x, a, Active(a, AtGate(a.cap, s.now)));
      && OnTheClock(Spent(s, x, a, Idle), Begin(x, a), s5) && OnTheClock(s5, Advance(x), s6)
      && OnTheClock(s6, Advance(x), Drained(s, x, a))
  {
    var s5, s6 := Spent(s, x, a, Active(a, AtBaseCap(a.cap))), Spent(s, x, a, Active(a, AtGate(a.cap, s.now)));
    assert Step(Spent(s, x, a, Idle), Begin(x, a)) == s5 && Step(s5, Advance(x)) == s6;
    assert !RecentClaim(s6.meters, a.inbox, s.now);
    assert Step(s6, Advance(x)) == Drained(s, x, a);
  }

  const JANUARY_MS := 31 * 24 * 60 * 60 * 1000

  /** January's resolve has passed the gate and stalls; in February another drains its pool and passes it too. */
  lemma BothPassTheGate(a: Args, b: Args) returns (ss: seq<State>, es: seq<Event>)
    requires a.inbox == b.inbox && a.windowStart == 0 && b.windowStart == JANUARY_MS && a.cap > 0 && b.cap > 0
    ensures Path(OnTheClock, ss, es) && |es| == 15
    ensures ss[0] == State(map[], {}, 0, [Idle, Idle])
    ensures ss[15].now == JANUARY_MS && |ss[15].slots| == 2
    ensures ss[15].slots[0] == Active(a, Claiming(a.cap, 0)) && ss[15].slots[1] == Active(b, Claiming(b.cap, JANUARY_MS))
    ensures ss[15].meters == map[KeyOf(a) := Meter(a.cap, false, None), KeyOf(b) := Meter(b.cap, false, None)]
  {
    var s0 := State(map[], {}, 0, [Idle, Idle]);
    var s7 := Drained(s0, 0, a);
    var s8 := s7.(now := JANUARY_MS);
    var first := DrainPath(s0, 0, a);
    var second := DrainPath(s8, 1, b);
    assert Path(OnTheClock, [s7, s8], [Tick(JANUARY_MS)]);
    ss, es := Join(OnTheClock, first, DrainAndLook(0, a), [s7, s8], [Tick(JANUARY_MS)]);
    ss, es := Join(OnTheClock, ss, es, second, DrainAndLook(1, b));
  }

  /**
   The yearly promise fails from empty tables, for any inbox and cap: a resolve
   that stalls after its gate look in January, while the February pool is drained
   and its resolve claims, still claims January's grace.
   */
  lemma StalledResolveClaimsAsWell(inbox: string, workspace: string, cap: nat)
    returns (ss: seq<State>, es: seq<Event>, january: MeterKey, february: MeterKey)
    requires cap > 0
    ensures Run(ss, es) && |es| == 17 && Path(OnTheClock, ss, es)
    ensures january == MeterKey(inbox, BACKFILL, 0) && february == MeterKey(inbox, BACKFILL, JANUARY_MS)
    ensures ClaimsAt(ss, es, 15, february, JANUARY_MS) && ClaimsAt(ss, es, 16, january, 0)
    ensures StampedAt(ss[17].meters, january, 0) && StampedAt(ss[17].meters, february, JANUARY_MS)
  {
    var a, b := Args(inbox, workspace, cap, 0), Args(inbox, workspace, cap, JANUARY_MS);
    january, february := KeyOf(a), KeyOf(b);
    ss, es := BothPassTheGate(a, b);
    var s15 := ss[15];
    var s16 := Step(s15, Advance(1));
    var s17 := Step(s16, Advance(0));
    assert Path(OnTheClock, [s15, s16, s17], [Advance(1), Advance(0)]);
    ss, es := Join(OnTheClock, ss, es, [s15, s16, s17], [Advance(1), Advance(0)]);
    assert es[15] == Advance(1) && es[16] == Advance(0);
  }
}
