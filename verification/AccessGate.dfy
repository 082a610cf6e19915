/**
 The bearer check in front of the API: the server's tables, one API instance's
 epoch cache and the requests it is deciding, as one interleaved system.

 A request that misses the cache reads the account row and stores what it read
 some time later, at most `delay` milliseconds; other requests, rotations and
 resets may happen in between.
 */
module AccessGate {
  import opened Prelude
  import S = Sessions
  import F = FamilyChains
  import H = SessionHistory
  import P = Paths
  import C = SessionCache

  /** The account's epoch as read, `None` for a deleted account. */
  type Epoch = Option<nat>

  /** A token is let through unless the account is gone or its epoch has moved on; no answer fails open. */
  predicate Admits(outcome: C.Outcome<Epoch>, tokenEpoch: nat) {
    match outcome
    case Unavailable => true
    case Fresh(v) => v.Some? && v.value <= tokenEpoch
    case Loaded(v) => v.Some? && v.value <= tokenEpoch
    case Stale(v) => v.Some? && v.value <= tokenEpoch
  }

  class Gate {
    const cache: C.StaleWhileErrorCache<Epoch>
    var userId: Option<S.UserId>

    constructor (cache: C.StaleWhileErrorCache<Epoch>)
      ensures this.cache == cache && userId == None
    {
      this.cache := cache;
      userId := None;
    }

    /** `verified` is the token's user and epoch, `None` when its signature or lifetime fails. */
    method CheckBearer(verified: Option<(S.UserId, nat)>, now: int, loaded: Option<Epoch>, later: int)
      returns (status: int, ghost outcome: C.Outcome<Epoch>)
      requires C.Valid(cache.Contents())
      modifies this, cache
      ensures C.Valid(cache.Contents())
      ensures status == 200 || status == 401
      ensures status == 401 ==> userId == old(userId)
      ensures status == 200 ==> verified.Some? && userId == Some(verified.value.0)
      ensures verified == None ==> cache.Contents() == old(cache.Contents())
      // a live entry decides alone; otherwise the account row does; otherwise the last entry known
      ensures verified.Some? ==>
        var (user, epoch) := verified.value;
        && C.LookedUp(old(cache.Contents()), user, now, loaded, later, cache.ttlMs, cache.Contents(), outcome)
        // refused exactly for a vanished account or an older epoch; with no answer at all the request is let through
        && (outcome.Unavailable? ==> status == 200)
        && (!outcome.Unavailable? ==>
              (status == 401 <==> outcome.value == None || epoch < outcome.value.value))
        && (status == 200 <==> Admits(outcome, epoch))
    {
      outcome := C.Unavailable;
      if verified == None { return 401, outcome; }
      var (user, epoch) := verified.value;
      var answer := cache.Get(user, now, loaded, later);
      outcome := answer;
      if !answer.Unavailable? {
        var account := answer.value;
        if account == None || epoch < account.value { return 401, outcome; }
      }
      userId := Some(user);
      status := 200;
    }
  }

  // ------------------------------------------------------------ the system

  datatype Read = Read(value: Epoch, at: int)

  datatype Sys = Sys(server: S.State, gate: C.CacheState<Epoch>, loads: map<nat, Read>)

  datatype Event =
    | Server(e: S.Event)
    | Begin(p: nat, user: S.UserId)      // a request asks the cache
    | ReadAccount(p: nat)                // its loader reads the account row
    | Finish(p: nat)                     // the loader resolves
    | Fail(p: nat)                       // the loader throws
    | Forget(user: S.UserId)             // an in-process invalidation

  function EpochOf(s: S.State, u: S.UserId): Epoch {
    if u in s.db.epochs then Some(s.db.epochs[u]) else None
  }

  /** What the cache sees of a system step. */
  function CacheEventOf(s: Sys, e: Event): Option<C.CacheEvent<Epoch>> {
    match e
    case Server(Tick(to)) => Some(C.Tick(to))
    case Server(_) => None
    case Begin(p, u) => Some(C.GetBegin(p, u))
    case ReadAccount(p) => None
    case Finish(p) => if p in s.loads then Some(C.GetLoaded(p, s.loads[p].value)) else None
    case Fail(p) => Some(C.GetThrew(p))
    case Forget(u) => Some(C.InvalidateKey(u))
  }

  ghost predicate Enabled(s: Sys, e: Event, delay: nat) {
    && (e.Server? ==> S.Enabled(s.server, e.e))
    && (e.ReadAccount? ==> e.p in s.gate.pending && e.p !in s.loads)
    && (e.Finish? ==> e.p in s.loads && s.server.now - s.loads[e.p].at <= delay)
    && (CacheEventOf(s, e).Some? ==> C.CanHappen(s.gate, CacheEventOf(s, e).value))
  }

  ghost function Step(s: Sys, e: Event, ttl: int, delay: nat): Sys
    requires Enabled(s, e, delay)
  {
    Sys(if e.Server? then S.Step(s.server, e.e) else s.server,
        var c := CacheEventOf(s, e);
        if c.Some? then C.Happen(s.gate, c.value, ttl) else s.gate,
        match e
        case ReadAccount(p) => s.loads[p := Read(EpochOf(s.server, s.gate.pending[p].key), s.server.now)]
        case Finish(p) => s.loads - {p}
        case Fail(p) => s.loads - {p}
        case _ => s.loads)
  }

  ghost predicate Run(ss: seq<Sys>, es: seq<Event>, ttl: int, delay: nat) {
    && |ss| == |es| + 1
    && S.Init(ss[0].server) && ss[0].gate == C.CacheState(C.Cache([], map[]), ss[0].server.now, map[])
    && ss[0].loads == map[]
    && forall i {:trigger es[i]} :: 0 <= i < |es| ==> Enabled(ss[i], es[i], delay) && ss[i + 1] == Step(ss[i], es[i], ttl, delay)
  }

  // -------------------------------------------------------- over whole runs

  /** The server keeps its invariant, the clocks agree, and only pending lookups have read. */
  ghost predicate Inv(s: Sys) {
    && F.Inv(s.server) && s.gate.now == s.server.now
    && forall p :: p in s.loads ==> p in s.gate.pending && s.loads[p].at <= s.server.now
  }

  lemma {:induction false} RunKeepsInv(ss: seq<Sys>, es: seq<Event>, ttl: int, delay: nat, n: nat)
    requires Run(ss, es, ttl, delay) && n < |ss|
    ensures Inv(ss[n])
  {
    if n == 0 {
      forall f ensures F.HasChain(ss[0].server.db.rows, f) { F.ChainEmpty(ss[0].server.db.rows, f); }
    } else {
      RunKeepsInv(ss, es, ttl, delay, n - 1);
      if es[n - 1].Server? { H.StepKeepsInv(ss[n - 1].server, es[n - 1].e); }
    }
  }

  lemma {:induction false} RunEvolves(ss: seq<Sys>, es: seq<Event>, ttl: int, delay: nat, m: nat, n: nat)
    requires Run(ss, es, ttl, delay) && m <= n < |ss|
    ensures H.Evolves(ss[m].server, ss[n].server)
    decreases n - m
  {
    if m < n {
      RunEvolves(ss, es, ttl, delay, m, n - 1);
      RunKeepsInv(ss, es, ttl, delay, n - 1);
      if es[n - 1].Server? {
        H.StepEvolves(ss[n - 1].server, es[n - 1].e);
        H.EvolvesTwice(ss[m].server, ss[n - 1].server, ss[n].server);
      }
    }
  }

  /** What a reading of the account must look like once its epoch has reached `epoch`. */
  predicate Current(v: Epoch, epoch: nat) { v.Some? ==> epoch <= v.value }

  /** After the account passed `epoch` at time `at`: whatever can still be served much later is current. */
  ghost predicate Overtaken(s: Sys, u: S.UserId, epoch: nat, at: int, ttl: int, delay: nat) {
    && u in s.server.issued && at <= s.server.now
    && Current(EpochOf(s.server, u), epoch)
    && (u in s.gate.cache.entries && s.gate.cache.entries[u].expiresAt > at + ttl + delay ==>
          Current(s.gate.cache.entries[u].value, epoch))
    && (forall p :: p in s.loads && p in s.gate.pending && s.gate.pending[p].key == u && s.loads[p].at > at ==>
          Current(s.loads[p].value, epoch))
  }

  lemma StepKeepsOvertaken(s: Sys, e: Event, u: S.UserId, epoch: nat, at: int, ttl: int, delay: nat)
    requires Inv(s) && Enabled(s, e, delay) && Overtaken(s, u, epoch, at, ttl, delay)
    ensures Overtaken(Step(s, e, ttl, delay), u, epoch, at, ttl, delay)
  {
    var t := Step(s, e, ttl, delay);
    if e.Server? { H.StepEvolves(s.server, e.e); }
    var c := CacheEventOf(s, e);
    if c.Some? && u in t.gate.cache.entries { C.StepOrigin(s.gate, c.value, ttl, u); }
  }

  /** The request at step `b` reads the account only after it began. */
  lemma {:induction false} LookupStaysCurrent(ss: seq<Sys>, es: seq<Event>, ttl: int, delay: nat, b: nat, n: nat,
                                              p: nat, u: S.UserId, epoch: nat)
    requires Run(ss, es, ttl, delay) && b < n < |ss| && es[b] == Begin(p, u)
    requires forall m :: b < m < n ==> es[m] != Finish(p) && es[m] != Fail(p)
    requires forall m :: b <= m < n ==> Current(EpochOf(ss[m].server, u), epoch)
    requires p in ss[b + 1].gate.pending
    ensures p in ss[n].gate.pending && ss[n].gate.pending[p].key == u
    ensures p in ss[n].loads ==> Current(ss[n].loads[p].value, epoch)
    decreases n - b
  {
    RunKeepsInv(ss, es, ttl, delay, b);
    if n > b + 1 {
      LookupStaysCurrent(ss, es, ttl, delay, b, n - 1, p, u, epoch);
      assert Enabled(ss[n - 1], es[n - 1], delay);
    }
  }

  lemma {:induction false} StaysOvertaken(ss: seq<Sys>, es: seq<Event>, ttl: int, delay: nat, m: nat, n: nat,
                                          u: S.UserId, epoch: nat, at: int)
    requires Run(ss, es, ttl, delay) && m <= n < |ss| && Overtaken(ss[m], u, epoch, at, ttl, delay)
    ensures Overtaken(ss[n], u, epoch, at, ttl, delay)
    decreases n - m
  {
    if m < n {
      StaysOvertaken(ss, es, ttl, delay, m, n - 1, u, epoch, at);
      RunKeepsInv(ss, es, ttl, delay, n - 1);
      assert Enabled(ss[n - 1], es[n - 1], delay) && ss[n] == Step(ss[n - 1], es[n - 1], ttl, delay);
      StepKeepsOvertaken(ss[n - 1], es[n - 1], u, epoch, at, ttl, delay);
    }
  }

  /** Every entry expires within one TTL of now. */
  predicate ExpiresSoon(s: Sys, k: string, ttl: int) {
    k in s.gate.cache.entries ==> s.gate.cache.entries[k].expiresAt <= s.gate.now + ttl
  }

  lemma StepExpiresSoon(s: Sys, e: Event, ttl: int, delay: nat, k: string)
    requires Inv(s) && Enabled(s, e, delay) && ExpiresSoon(s, k, ttl)
    ensures ExpiresSoon(Step(s, e, ttl, delay), k, ttl)
  {
    var t := Step(s, e, ttl, delay);
    var c := CacheEventOf(s, e);
    if c.Some? && k in t.gate.cache.entries { C.StepOrigin(s.gate, c.value, ttl, k); }
  }

  lemma {:induction false} EntriesExpireSoon(ss: seq<Sys>, es: seq<Event>, ttl: int, delay: nat, n: nat, k: string)
    requires Run(ss, es, ttl, delay) && n < |ss|
    ensures ExpiresSoon(ss[n], k, ttl)
  {
    if n > 0 {
      EntriesExpireSoon(ss, es, ttl, delay, n - 1, k);
      RunKeepsInv(ss, es, ttl, delay, n - 1);
      StepExpiresSoon(ss[n - 1], es[n - 1], ttl, delay, k);
    }
  }

  /** Step `k` is a rotation that returned `r`. */
  ghost predicate RotatesAt(ss: seq<Sys>, es: seq<Event>, k: nat, r: S.Rotation)
    requires |ss| == |es| + 1
  {
    && k < |es| && es[k].Server? && es[k].e.RunConsume?
    && es[k].e.call in ss[k + 1].server.calls
    && ss[k + 1].server.calls[es[k].e.call] == S.Returned(Some(r))
  }

  /** Step `i` ends every session of `u`: a reset that returns ok, or a first verification. */
  ghost predicate ResetsAt(ss: seq<Sys>, es: seq<Event>, i: nat, u: S.UserId)
    requires |ss| == |es| + 1
  {
    i < |es| && es[i].Server? && S.EndsSessions(ss[i].server.db, es[i].e, u)
  }

  /** The request that began at step `b` is answered at step `j`, fresh or after its loader ran. */
  ghost predicate AnsweredAt(ss: seq<Sys>, es: seq<Event>, b: nat, j: nat, p: nat, u: S.UserId)
    requires |ss| == |es| + 1
  {
    && b <= j < |es| && es[b] == Begin(p, u)
    && if j == b then C.FreshAt(ss[b].gate.cache, u, ss[b].gate.now).Some?
       else es[j] == Finish(p) && p in ss[b + 1].gate.pending
            && forall m :: b < m < j ==> es[m] != Finish(p) && es[m] != Fail(p)
  }

  /** The verdict's input at step `j`. */
  ghost function OutcomeAt(ss: seq<Sys>, es: seq<Event>, ttl: int, delay: nat, j: nat): C.Outcome<Epoch>
    requires Run(ss, es, ttl, delay) && j < |es| && CacheEventOf(ss[j], es[j]).Some?
    requires C.Answer(ss[j].gate, CacheEventOf(ss[j], es[j]).value).Some?
  {
    C.Answer(ss[j].gate, CacheEventOf(ss[j], es[j]).value).value
  }

  /** The reset leaves everything older than it overtaken. */
  lemma ResetOvertakes(ss: seq<Sys>, es: seq<Event>, ttl: nat, delay: nat, k: nat, i: nat, r: S.Rotation)
    requires Run(ss, es, ttl, delay) && k < i
    requires RotatesAt(ss, es, k, r) && ResetsAt(ss, es, i, r.user)
    ensures Overtaken(ss[i + 1], r.user, r.epoch + 1, ss[i].server.now, ttl, delay)
  {
    RunKeepsInv(ss, es, ttl, delay, k);
    assert Enabled(ss[k], es[k], delay) && Enabled(ss[i], es[i], delay);
    H.MintedEpochIsTheAccounts(ss[k].server, es[k].e, r);
    assert r.user in ss[i].server.issued && Current(EpochOf(ss[i].server, r.user), r.epoch) by {
      RunEvolves(ss, es, ttl, delay, k, i);
    }
    H.ResetAdvancesEpoch(ss[i].server, es[i].e, r.user);
    RunKeepsInv(ss, es, ttl, delay, i + 1);
    EntriesExpireSoon(ss, es, ttl, delay, i + 1, r.user);
  }

  /** The account's epoch from the step after `i` on, whoever asks. */
  lemma StaysCurrent(ss: seq<Sys>, es: seq<Event>, ttl: int, delay: nat, i: nat, j: nat, u: S.UserId, epoch: nat, at: int)
    requires Run(ss, es, ttl, delay) && i <= j < |ss| && Overtaken(ss[i], u, epoch, at, ttl, delay)
    ensures forall m :: i <= m <= j ==> Current(EpochOf(ss[m].server, u), epoch)
  {
    forall m | i <= m <= j ensures Current(EpochOf(ss[m].server, u), epoch) {
      StaysOvertaken(ss, es, ttl, delay, i, m, u, epoch, at);
    }
  }

  /** A fresh answer, served late. */
  lemma FreshAnswerIsCurrent(s: Sys, p: nat, u: S.UserId, epoch: nat, at: int, ttl: int, delay: nat)
    requires Overtaken(s, u, epoch, at, ttl, delay) && C.FreshAt(s.gate.cache, u, s.gate.now).Some?
    requires s.gate.now >= at + ttl + delay && p !in s.gate.pending
    ensures C.Answer(s.gate, C.GetBegin(p, u)).Some?
    ensures C.Answer(s.gate, C.GetBegin(p, u)).value.Fresh?
    ensures Current(C.Answer(s.gate, C.GetBegin(p, u)).value.value, epoch)
  {
  }

  /** An answer from a loader that read late. */
  lemma LoadedAnswerIsCurrent(s: Sys, p: nat, epoch: nat)
    requires p in s.loads && p in s.gate.pending && Current(s.loads[p].value, epoch)
    ensures CacheEventOf(s, Finish(p)) == Some(C.GetLoaded(p, s.loads[p].value))
    ensures C.Answer(s.gate, C.GetLoaded(p, s.loads[p].value)) == Some(C.Loaded(s.loads[p].value))
  {
  }

  /**
   An access token minted from a rotation before the account's reset or first
   verification is rejected by every request that begins a TTL (plus the longest a
   loader takes) after it and is answered fresh or loaded.
   */
  lemma RevokedAccessIsRejected(ss: seq<Sys>, es: seq<Event>, ttl: nat, delay: nat,
                                k: nat, i: nat, b: nat, j: nat, p: nat, r: S.Rotation)
    requires Run(ss, es, ttl, delay) && k < i < b
    requires RotatesAt(ss, es, k, r) && ResetsAt(ss, es, i, r.user) && AnsweredAt(ss, es, b, j, p, r.user)
    requires ss[b].server.now >= ss[i].server.now + ttl + delay
    ensures CacheEventOf(ss[j], es[j]).Some? && C.Answer(ss[j].gate, CacheEventOf(ss[j], es[j]).value).Some?
    ensures OutcomeAt(ss, es, ttl, delay, j).Fresh? || OutcomeAt(ss, es, ttl, delay, j).Loaded?
    ensures !Admits(OutcomeAt(ss, es, ttl, delay, j), r.epoch)
  {
    var u, epoch, at := r.user, r.epoch + 1, ss[i].server.now;
    ResetOvertakes(ss, es, ttl, delay, k, i, r);
    assert Enabled(ss[j], es[j], delay);
    if j == b {
      RunKeepsInv(ss, es, ttl, delay, b);
      StaysOvertaken(ss, es, ttl, delay, i + 1, b, u, epoch, at);
      FreshAnswerIsCurrent(ss[b], p, u, epoch, at, ttl, delay);
    } else {
      StaysCurrent(ss, es, ttl, delay, i + 1, j, u, epoch, at);
      LookupStaysCurrent(ss, es, ttl, delay, b, j, p, u, epoch);
      LoadedAnswerIsCurrent(ss[j], p, epoch);
    }
  }

  // ------------------------------------------------------ who is let through

  /** Nothing read for the account is ahead of it, and nothing at all was read for one that never existed. */
  predicate Readable(s: S.State, u: S.UserId, v: Epoch) {
    v.Some? ==> u in s.issued && (u in s.db.epochs ==> v.value <= s.db.epochs[u])
  }

  /** Everything an instance holds for the account is such a reading. */
  ghost predicate NothingAhead(s: Sys, u: S.UserId) {
    && (u in s.server.db.epochs ==> u in s.server.issued)
    && (u in s.gate.cache.entries ==> Readable(s.server, u, s.gate.cache.entries[u].value))
    && (forall p :: p in s.gate.pending && s.gate.pending[p].key == u ==>
          && (s.gate.pending[p].held.Some? ==> Readable(s.server, u, s.gate.pending[p].held.value.value))
          && (p in s.loads ==> Readable(s.server, u, s.loads[p].value)))
  }

  lemma ReadableStays(s: S.State, e: S.Event, u: S.UserId, v: Epoch)
    requires F.Inv(s) && S.Enabled(s, e) && Readable(s, u, v)
    ensures Readable(S.Step(s, e), u, v)
  {
    H.StepEvolves(s, e);
  }

  lemma StepKeepsNothingAhead(s: Sys, e: Event, ttl: int, delay: nat, u: S.UserId)
    requires Inv(s) && Enabled(s, e, delay) && NothingAhead(s, u)
    ensures NothingAhead(Step(s, e, ttl, delay), u)
  {
    if e.Server? {
      ServerKeepsNothingAhead(s, e, ttl, delay, u);
    } else {
      var t, c := Step(s, e, ttl, delay), CacheEventOf(s, e);
      if c.Some? && u in t.gate.cache.entries { C.StepOrigin(s.gate, c.value, ttl, u); }
    }
  }

  lemma ServerKeepsNothingAhead(s: Sys, e: Event, ttl: int, delay: nat, u: S.UserId)
    requires Inv(s) && Enabled(s, e, delay) && NothingAhead(s, u) && e.Server?
    ensures NothingAhead(Step(s, e, ttl, delay), u)
  {
    var t := Step(s, e, ttl, delay);
    H.StepKeepsTable(s.server, e.e);
    forall v | Readable(s.server, u, v) ensures Readable(t.server, u, v) { ReadableStays(s.server, e.e, u, v); }
    assert t.gate.cache == s.gate.cache && t.gate.pending == s.gate.pending && t.loads == s.loads;
  }

  lemma {:induction false} RunNothingAhead(ss: seq<Sys>, es: seq<Event>, ttl: int, delay: nat, n: nat, u: S.UserId)
    requires Run(ss, es, ttl, delay) && n < |ss|
    ensures NothingAhead(ss[n], u)
  {
    if n > 0 {
      RunNothingAhead(ss, es, ttl, delay, n - 1, u);
      RunKeepsInv(ss, es, ttl, delay, n - 1);
      assert Enabled(ss[n - 1], es[n - 1], delay) && ss[n] == Step(ss[n - 1], es[n - 1], ttl, delay);
      StepKeepsNothingAhead(ss[n - 1], es[n - 1], ttl, delay, u);
    }
  }

  /** The step leaves the account and its sessions alone. */
  predicate Spares(s: Sys, e: Event, u: S.UserId) {
    e.Server? ==> !S.EndsSessions(s.server.db, e.e, u) && e.e != S.DeleteAccount(u)
  }

  lemma SparedKeepsEpoch(s: S.State, e: S.Event, u: S.UserId)
    requires F.Inv(s) && S.Enabled(s, e) && u in s.db.epochs
    requires !S.EndsSessions(s.db, e, u) && e != S.DeleteAccount(u)
    ensures u in S.Step(s, e).db.epochs && S.Step(s, e).db.epochs[u] == s.db.epochs[u]
  {
  }

  /** The steps from `a` up to `b` spare the account. */
  ghost predicate SparedFrom(ss: seq<Sys>, es: seq<Event>, a: nat, b: nat, u: S.UserId) {
    b <= |es| <= |ss| && forall m {:trigger es[m]} :: a <= m < b ==> Spares(ss[m], es[m], u)
  }

  lemma {:induction false} SparedEpochStays(ss: seq<Sys>, es: seq<Event>, ttl: int, delay: nat, a: nat, n: nat, r: S.Rotation)
    requires Run(ss, es, ttl, delay) && a <= n < |ss| && SparedFrom(ss, es, a, n, r.user)
    requires EpochOf(ss[a].server, r.user) == Some(r.epoch)
    ensures EpochOf(ss[n].server, r.user) == Some(r.epoch)
    decreases n - a
  {
    if a < n {
      SparedEpochStays(ss, es, ttl, delay, a, n - 1, r);
      RunKeepsInv(ss, es, ttl, delay, n - 1);
      assert Enabled(ss[n - 1], es[n - 1], delay) && ss[n] == Step(ss[n - 1], es[n - 1], ttl, delay);
      assert Spares(ss[n - 1], es[n - 1], r.user);
      StepSparesEpoch(ss[n - 1], es[n - 1], ttl, delay, r);
    }
  }

  /** From its rotation on, as long as the account is spared, its epoch is the one the rotation returned. */
  lemma EpochHolds(ss: seq<Sys>, es: seq<Event>, ttl: int, delay: nat, k: nat, n: nat, r: S.Rotation)
    requires Run(ss, es, ttl, delay) && RotatesAt(ss, es, k, r) && k < n < |ss| && SparedFrom(ss, es, k + 1, n, r.user)
    ensures EpochOf(ss[n].server, r.user) == Some(r.epoch)
  {
    RunKeepsInv(ss, es, ttl, delay, k);
    assert Enabled(ss[k], es[k], delay) && ss[k + 1] == Step(ss[k], es[k], ttl, delay);
    RotationKeepsEpoch(ss[k], es[k], ttl, delay, r);
    SparedEpochStays(ss, es, ttl, delay, k + 1, n, r);
  }

  lemma RotationKeepsEpoch(s: Sys, e: Event, ttl: int, delay: nat, r: S.Rotation)
    requires Inv(s) && Enabled(s, e, delay) && e.Server? && e.e.RunConsume?
    requires S.Step(s.server, e.e).calls[e.e.call] == S.Returned(Some(r))
    ensures EpochOf(Step(s, e, ttl, delay).server, r.user) == Some(r.epoch)
  {
    H.MintedEpochIsTheAccounts(s.server, e.e, r);
  }

  lemma StepSparesEpoch(s: Sys, e: Event, ttl: int, delay: nat, r: S.Rotation)
    requires Inv(s) && Enabled(s, e, delay) && Spares(s, e, r.user) && EpochOf(s.server, r.user) == Some(r.epoch)
    ensures EpochOf(Step(s, e, ttl, delay).server, r.user) == Some(r.epoch)
  {
    if e.Server? { SparedKeepsEpoch(s.server, e.e, r.user); }
  }

  /** Whom the answer of step `j` is about. */
  predicate AsksFor(s: Sys, e: Event, u: S.UserId) {
    match e
    case Begin(_, v) => v == u
    case Finish(p) => p in s.gate.pending && s.gate.pending[p].key == u
    case Fail(p) => p in s.gate.pending && s.gate.pending[p].key == u
    case _ => false
  }

  /** What an answer can say about the account at that moment. */
  lemma AnswerIsReadable(s: Sys, e: Event, delay: nat, u: S.UserId)
    requires Enabled(s, e, delay) && NothingAhead(s, u) && AsksFor(s, e, u) && CacheEventOf(s, e).Some?
    requires C.Answer(s.gate, CacheEventOf(s, e).value).Some?
    ensures
      var o := C.Answer(s.gate, CacheEventOf(s, e).value).value;
      o.Unavailable? || Readable(s.server, u, o.value)
  {
  }

  /**
   An access token whose account has been spared since its rotation is let
   through by every request, however it is answered: fresh, loaded, stale or not
   at all. Only an answer that the account does not exist refuses it.
   */
  lemma CurrentAccessIsAdmitted(ss: seq<Sys>, es: seq<Event>, ttl: nat, delay: nat, k: nat, j: nat, r: S.Rotation)
    requires Run(ss, es, ttl, delay) && RotatesAt(ss, es, k, r) && k < j < |es|
    requires SparedFrom(ss, es, k + 1, j, r.user)
    requires AsksFor(ss[j], es[j], r.user) && CacheEventOf(ss[j], es[j]).Some?
    requires C.Answer(ss[j].gate, CacheEventOf(ss[j], es[j]).value).Some?
    ensures
      var o := OutcomeAt(ss, es, ttl, delay, j);
      o.Unavailable? || o.value.Some? ==> Admits(o, r.epoch)
  {
    EpochHolds(ss, es, ttl, delay, k, j, r);
    RunNothingAhead(ss, es, ttl, delay, j, r.user);
    assert Enabled(ss[j], es[j], delay);
    AnswerIsReadable(ss[j], es[j], delay, r.user);
  }

  /** A loader that runs while the account is spared reads its epoch. */
  lemma {:induction false} LoadIsExact(ss: seq<Sys>, es: seq<Event>, ttl: int, delay: nat, b: nat, n: nat,
                                       p: nat, u: S.UserId, epoch: nat)
    requires Run(ss, es, ttl, delay) && b < n < |ss| && es[b] == Begin(p, u) && p in ss[b + 1].gate.pending
    requires forall m :: b < m < n ==> es[m] != Finish(p) && es[m] != Fail(p)
    requires forall m :: b < m < n ==> EpochOf(ss[m].server, u) == Some(epoch)
    ensures p in ss[n].gate.pending && ss[n].gate.pending[p].key == u
    ensures p in ss[n].loads ==> ss[n].loads[p].value == Some(epoch)
    decreases n - b
  {
    RunKeepsInv(ss, es, ttl, delay, b);
    assert Enabled(ss[n - 1], es[n - 1], delay) && ss[n] == Step(ss[n - 1], es[n - 1], ttl, delay);
    if n > b + 1 { LoadIsExact(ss, es, ttl, delay, b, n - 1, p, u, epoch); }
  }

  /** A request that begins after the rotation and loads the account gets exactly the rotation's epoch, and passes. */
  lemma LoadedAccessIsAdmitted(ss: seq<Sys>, es: seq<Event>, ttl: nat, delay: nat,
                               k: nat, b: nat, j: nat, p: nat, r: S.Rotation)
    requires Run(ss, es, ttl, delay) && RotatesAt(ss, es, k, r) && k < b < j
    requires AnsweredAt(ss, es, b, j, p, r.user)
    requires SparedFrom(ss, es, k + 1, j, r.user)
    ensures CacheEventOf(ss[j], es[j]).Some? && C.Answer(ss[j].gate, CacheEventOf(ss[j], es[j]).value).Some?
    ensures OutcomeAt(ss, es, ttl, delay, j) == C.Loaded(Some(r.epoch))
    ensures Admits(OutcomeAt(ss, es, ttl, delay, j), r.epoch)
  {
    forall m | b < m < j ensures EpochOf(ss[m].server, r.user) == Some(r.epoch) {
      assert SparedFrom(ss, es, k + 1, m, r.user);
      EpochHolds(ss, es, ttl, delay, k, m, r);
    }
    LoadIsExact(ss, es, ttl, delay, b, j, p, r.user, r.epoch);
    assert Enabled(ss[j], es[j], delay);
  }

  /** After an in-process invalidation the account's next request does not answer from the cache. */
  lemma ForgottenIsReadAgain(s: Sys, u: S.UserId, p: nat, ttl: int, delay: nat)
    requires p !in s.gate.pending
    ensures Enabled(s, Forget(u), delay)
    ensures
      var t := Step(s, Forget(u), ttl, delay);
      && u !in t.gate.cache.entries
      && (forall v :: v != u && v in s.gate.cache.entries ==>
            v in t.gate.cache.entries && t.gate.cache.entries[v] == s.gate.cache.entries[v])
      && Enabled(t, Begin(p, u), delay) && C.Answer(t.gate, C.GetBegin(p, u)) == None
      && p in Step(t, Begin(p, u), ttl, delay).gate.pending
  {
  }

  // ------------------------------------------------------------ answers during an outage

  /** The request that began at step `b` waits, and its loader throws at step `j`. */
  ghost predicate FailsAt(ss: seq<Sys>, es: seq<Event>, b: nat, j: nat, p: nat, u: S.UserId)
    requires |ss| == |es| + 1
  {
    && b < j < |es| && es[b] == Begin(p, u) && es[j] == Fail(p) && p in ss[b + 1].gate.pending
    && forall m :: b < m < j ==> es[m] != Finish(p) && es[m] != Fail(p)
  }

  /** What a waiting request holds does not move. */
  lemma {:induction false} HeldWaits(ss: seq<Sys>, es: seq<Event>, ttl: int, delay: nat, b: nat, n: nat, p: nat)
    requires Run(ss, es, ttl, delay) && b <= n < |ss| && p in ss[b].gate.pending
    requires forall m :: b <= m < n ==> es[m] != Finish(p) && es[m] != Fail(p)
    ensures p in ss[n].gate.pending && ss[n].gate.pending[p] == ss[b].gate.pending[p]
    decreases n - b
  {
    if b < n {
      HeldWaits(ss, es, ttl, delay, b, n - 1, p);
      assert Enabled(ss[n - 1], es[n - 1], delay);
    }
  }

  /**
   A stale answer still enforces a revocation seen before the outage: if the entry
   held when the request began was stored more than the longest load after the
   reset, the request is answered from it and rejected.
   */
  lemma StaleAnswerIsRejected(ss: seq<Sys>, es: seq<Event>, ttl: nat, delay: nat,
                              k: nat, i: nat, b: nat, j: nat, p: nat, r: S.Rotation)
    requires Run(ss, es, ttl, delay) && k < i < b
    requires RotatesAt(ss, es, k, r) && ResetsAt(ss, es, i, r.user) && FailsAt(ss, es, b, j, p, r.user)
    requires r.user in ss[b].gate.cache.entries
    requires ss[b].gate.cache.entries[r.user].expiresAt > ss[i].server.now + ttl + delay
    ensures CacheEventOf(ss[j], es[j]).Some? && C.Answer(ss[j].gate, CacheEventOf(ss[j], es[j]).value).Some?
    ensures OutcomeAt(ss, es, ttl, delay, j) == C.Stale(ss[b].gate.cache.entries[r.user].value)
    ensures !Admits(OutcomeAt(ss, es, ttl, delay, j), r.epoch)
  {
    assert Enabled(ss[b], es[b], delay) && Enabled(ss[j], es[j], delay);
    HeldWaits(ss, es, ttl, delay, b + 1, j, p);
    assert Current(ss[b].gate.cache.entries[r.user].value, r.epoch + 1) by {
      ResetOvertakes(ss, es, ttl, delay, k, i, r);
      StaysOvertaken(ss, es, ttl, delay, i + 1, b, r.user, r.epoch + 1, ss[i].server.now);
    }
  }

  /** One step of this system. */
  ghost function Next(ttl: int, delay: nat): (Sys, Event, Sys) -> bool {
    (s, e, t) => Enabled(s, e, delay) && t == Step(s, e, ttl, delay)
  }

  /** One account with this epoch and password, and its live reset token, if any. */
  function Account(u: S.UserId, epoch: nat, password: string, live: map<S.UserId, S.RawToken>, issued: set<string>): S.State {
    S.State(S.Db(map[], map[u := epoch], map[u := password], live), 0, issued, map[])
  }

  const EMPTY_GATE: C.CacheState<Epoch> := C.CacheState(C.Cache([], map[]), 0, map[])

  const START := Sys(S.State(S.Db(map[], map[], map[], map[]), 0, {}, map[]), EMPTY_GATE, map[])

  /** A request has read the account, and still waits. */
  function OneRead(u: S.UserId): Sys {
    Sys(Account(u, 0, "old", map[], {u}), EMPTY_GATE.(pending := map[0 := C.Lookup(u, None)]), map[0 := Read(Some(0), 0)])
  }

  /** The account has been reset, and a second request has read it after that. */
  function BothRead(u: S.UserId, token: S.RawToken): Sys {
    Sys(Account(u, 1, "new", map[], {u, token}),
        EMPTY_GATE.(pending := map[0 := C.Lookup(u, None), 1 := C.Lookup(u, None)]),
        map[0 := Read(Some(0), 0), 1 := Read(Some(1), 0)])
  }

  function CacheOf(u: S.UserId, epoch: nat, ttl: nat): C.Cache<Epoch> {
    C.Cache([u], map[u := C.Entry(Some(epoch), ttl)])
  }

  /** The second request has stored the new epoch, and then the first the old one. */
  function BothStored(u: S.UserId, token: S.RawToken, ttl: nat): Sys {
    BothRead(u, token).(gate := EMPTY_GATE.(cache := CacheOf(u, 0, ttl)), loads := map[])
  }

  lemma OneReads(u: S.UserId, ttl: nat, delay: nat) returns (ss: seq<Sys>, es: seq<Event>)
    ensures P.Path(Next(ttl, delay), ss, es) && |es| == 3 && ss[0] == START && ss[3] == OneRead(u)
  {
    var s1 := START.(server := Account(u, 0, "old", map[], {u}));
    var s2 := s1.(gate := OneRead(u).gate);
    var create := Server(S.CreateAccount(u, "old"));
    assert Enabled(START, create, delay) && Step(START, create, ttl, delay) == s1;
    assert Enabled(s1, Begin(0, u), delay) && Step(s1, Begin(0, u), ttl, delay) == s2;
    assert Enabled(s2, ReadAccount(0), delay) && Step(s2, ReadAccount(0), ttl, delay) == OneRead(u);
    ss, es := [START, s1, s2, OneRead(u)], [create, Begin(0, u), ReadAccount(0)];
  }

  lemma ResetAndRead(u: S.UserId, token: S.RawToken, ttl: nat, delay: nat) returns (ss: seq<Sys>, es: seq<Event>)
    requires u != token
    ensures P.Path(Next(ttl, delay), ss, es) && |es| == 4 && ss[0] == OneRead(u) && ss[4] == BothRead(u, token)
    ensures ResetsAt(ss, es, 1, u)
  {
    ResetIsDone(u, token);
    var s0, s4 := OneRead(u), BothRead(u, token);
    var s1 := s0.(server := Account(u, 0, "old", map[u := token], {u, token}));
    var s2 := s0.(server := s4.server);
    var s3 := s2.(gate := s4.gate);
    var issue, reset := Server(S.IssueReset(u, token)), Server(S.ApplyReset(u, "new", token));
    Issues(u, token, s1, ttl, delay);
    Resets(u, token, s1, s2, ttl, delay);
    ReadsAgain(u, token, s2, s3, ttl, delay);
    ss, es := [s0, s1, s2, s3, s4], [issue, reset, Begin(1, u), ReadAccount(1)];
  }

  lemma Issues(u: S.UserId, token: S.RawToken, t: Sys, ttl: nat, delay: nat)
    requires u != token && t == OneRead(u).(server := Account(u, 0, "old", map[u := token], {u, token}))
    ensures Next(ttl, delay)(OneRead(u), Server(S.IssueReset(u, token)), t)
  {
    var s, e := OneRead(u), Server(S.IssueReset(u, token));
    assert {u} + {token} == {u, token};
    assert Enabled(s, e, delay) && Step(s, e, ttl, delay) == t;
  }

  lemma Resets(u: S.UserId, token: S.RawToken, s: Sys, t: Sys, ttl: nat, delay: nat)
    requires u != token && s == OneRead(u).(server := Account(u, 0, "old", map[u := token], {u, token}))
    requires t == OneRead(u).(server := BothRead(u, token).server)
    ensures Next(ttl, delay)(s, Server(S.ApplyReset(u, "new", token)), t)
  {
    var e := Server(S.ApplyReset(u, "new", token));
    ResetIsDone(u, token);
    assert Enabled(s, e, delay) && Step(s, e, ttl, delay) == t;
  }

  lemma ReadsAgain(u: S.UserId, token: S.RawToken, s: Sys, m: Sys, ttl: nat, delay: nat)
    requires s == OneRead(u).(server := BothRead(u, token).server) && m == s.(gate := BothRead(u, token).gate)
    ensures Next(ttl, delay)(s, Begin(1, u), m) && Next(ttl, delay)(m, ReadAccount(1), BothRead(u, token))
  {
    assert Enabled(s, Begin(1, u), delay) && Step(s, Begin(1, u), ttl, delay) == m;
    assert Enabled(m, ReadAccount(1), delay) && Step(m, ReadAccount(1), ttl, delay) == BothRead(u, token);
  }

  lemma ResetIsDone(u: S.UserId, token: S.RawToken)
    requires u != token
    ensures S.ResetSucceeds(Account(u, 0, "old", map[u := token], {u, token}).db, u, token)
    ensures S.ResetTx(Account(u, 0, "old", map[u := token], {u, token}).db, u, "new", token) ==
            Account(u, 1, "new", map[], {u, token}).db
  {
    var live := map[u := token];
    assert u in live && live[u] == token;
  }

  lemma BothStore(u: S.UserId, token: S.RawToken, ttl: nat, delay: nat) returns (ss: seq<Sys>, es: seq<Event>)
    ensures P.Path(Next(ttl, delay), ss, es) && |es| == 2 && ss[0] == BothRead(u, token) && ss[2] == BothStored(u, token, ttl)
    ensures ss[1].gate.cache == CacheOf(u, 1, ttl)
  {
    var s0, s2 := BothRead(u, token), BothStored(u, token, ttl);
    var s1 := s0.(gate := C.CacheState(CacheOf(u, 1, ttl), 0, map[0 := C.Lookup(u, None)]), loads := map[0 := Read(Some(0), 0)]);
    StoresNew(u, token, s1, ttl, delay);
    StoresOld(u, token, s1, ttl, delay);
    ss, es := [s0, s1, s2], [Finish(1), Finish(0)];
  }

  lemma PutsOnly(u: S.UserId, epoch: nat, ttl: nat)
    ensures C.Put(C.Cache([], map[]), u, C.Entry(Some(epoch), ttl)) == CacheOf(u, epoch, ttl)
    ensures C.Put(CacheOf(u, 1, ttl), u, C.Entry(Some(epoch), ttl)) == CacheOf(u, epoch, ttl)
  {
    assert [] + [u] == [u];
    assert CacheOf(u, 1, ttl).entries[u := C.Entry(Some(epoch), ttl)] == CacheOf(u, epoch, ttl).entries;
  }

  lemma StoresNew(u: S.UserId, token: S.RawToken, t: Sys, ttl: nat, delay: nat)
    requires t == BothRead(u, token).(gate := C.CacheState(CacheOf(u, 1, ttl), 0, map[0 := C.Lookup(u, None)]),
                                      loads := map[0 := Read(Some(0), 0)])
    ensures Enabled(BothRead(u, token), Finish(1), delay) && Step(BothRead(u, token), Finish(1), ttl, delay) == t
  {
    var s := BothRead(u, token);
    PutsOnly(u, 1, ttl);
    assert CacheEventOf(s, Finish(1)) == Some(C.GetLoaded(1, Some(1)));
    assert s.gate.pending - {1} == t.gate.pending && s.loads - {1} == t.loads;
    assert C.Happen(s.gate, C.GetLoaded(1, Some(1)), ttl) == t.gate;
  }

  lemma StoresOld(u: S.UserId, token: S.RawToken, s: Sys, ttl: nat, delay: nat)
    requires s == BothRead(u, token).(gate := C.CacheState(CacheOf(u, 1, ttl), 0, map[0 := C.Lookup(u, None)]),
                                      loads := map[0 := Read(Some(0), 0)])
    ensures Enabled(s, Finish(0), delay) && Step(s, Finish(0), ttl, delay) == BothStored(u, token, ttl)
  {
    PutsOnly(u, 0, ttl);
    assert CacheEventOf(s, Finish(0)) == Some(C.GetLoaded(0, Some(0)));
    assert s.gate.pending - {0} == map[] && s.loads - {0} == map[];
    assert C.Happen(s.gate, C.GetLoaded(0, Some(0)), ttl) == BothStored(u, token, ttl).gate;
  }

  lemma OutageBegins(u: S.UserId, token: S.RawToken, ttl: nat, delay: nat) returns (ss: seq<Sys>, es: seq<Event>)
    ensures P.Path(Next(ttl, delay), ss, es) && |es| == 3 && ss[0] == BothStored(u, token, ttl)
    ensures FailsAt(ss, es, 1, 2, 2, u) && EpochOf(ss[2].server, u) == Some(1)
    ensures CacheEventOf(ss[2], es[2]).Some? && C.Answer(ss[2].gate, CacheEventOf(ss[2], es[2]).value) == Some(C.Stale(Some(0)))
  {
    var s0 := BothStored(u, token, ttl);
    var s1 := s0.(server := s0.server.(now := ttl), gate := s0.gate.(now := ttl));
    var s2 := s1.(gate := s1.gate.(pending := map[2 := C.Lookup(u, Some(C.Entry(Some(0), ttl)))]));
    var s3 := Step(s2, Fail(2), ttl, delay);
    assert Enabled(s0, Server(S.Tick(ttl)), delay) && Step(s0, Server(S.Tick(ttl)), ttl, delay) == s1;
    assert Enabled(s1, Begin(2, u), delay) && Step(s1, Begin(2, u), ttl, delay) == s2;
    assert Enabled(s2, Fail(2), delay) && Step(s2, Fail(2), ttl, delay) == s3;
    ss, es := [s0, s1, s2, s3], [Server(S.Tick(ttl)), Begin(2, u), Fail(2)];
  }

  /**
   The entry's age matters, for every TTL and every bound on loads: a load that
   read before the reset and resolves after one that saw it leaves the old epoch
   behind, and a request in the outage that follows is admitted with it, although
   this instance had already stored the new one.
   */
  lemma SlowLoadHidesReset(u: S.UserId, token: S.RawToken, ttl: nat, delay: nat) returns (ss: seq<Sys>, es: seq<Event>)
    requires u != token
    ensures Run(ss, es, ttl, delay) && |es| == 12 && ResetsAt(ss, es, 4, u)
    ensures ss[8].gate.cache == CacheOf(u, 1, ttl) && ss[9].gate.cache == CacheOf(u, 0, ttl)
    ensures FailsAt(ss, es, 10, 11, 2, u) && EpochOf(ss[11].server, u) == Some(1)
    ensures CacheEventOf(ss[11], es[11]).Some? && C.Answer(ss[11].gate, CacheEventOf(ss[11], es[11]).value).Some?
    ensures OutcomeAt(ss, es, ttl, delay, 11) == C.Stale(Some(0)) && Admits(OutcomeAt(ss, es, ttl, delay, 11), 0)
  {
    var next := Next(ttl, delay);
    var ss1, es1 := OneReads(u, ttl, delay);
    var ss2, es2 := ResetAndRead(u, token, ttl, delay);
    var ss3, es3 := BothStore(u, token, ttl, delay);
    var ss4, es4 := OutageBegins(u, token, ttl, delay);
    ss, es := P.Join(next, ss1, es1, ss2, es2);
    assert es[4] == es2[1] && ss[4] == ss2[1];
    ss, es := P.Join(next, ss, es, ss3, es3);
    ss, es := P.Join(next, ss, es, ss4, es4);
    assert ss[8] == ss3[1] && ss[9] == ss4[0] && es[10] == es4[1] && es[11] == es4[2] && ss[11] == ss4[2];
    PathIsRun(ss, es, ttl, delay);
  }

  lemma PathIsRun(ss: seq<Sys>, es: seq<Event>, ttl: nat, delay: nat)
    requires P.Path(Next(ttl, delay), ss, es) && ss[0] == START
    ensures Run(ss, es, ttl, delay)
  {
    assert forall i :: 0 <= i < |es| ==> Next(ttl, delay)(ss[i], es[i], ss[i + 1]);
  }
}
