/**
 The native client's transport: concurrent API calls that share one refresh.
 Each method is the code between two awaits of one call, and each is proved
 against a function of the transport's state that the composed system below uses.
 */
module BearerClient {
  import opened Prelude
  import S = Sessions

  datatype Tokens = Tokens(user: S.UserId, epoch: nat, refresh: S.RawToken)

  /** Where a started `doRefresh` stands. */
  datatype Flight =
    | ReadingStore
    | Posted(raw: S.RawToken)                    // on the wire
    | AtServer(raw: S.RawToken, call: S.CallId)  // being handled
    | Settled(access: Option<Tokens>)            // finished, `finally` not yet run

  /** Where an API call stands. */
  datatype Fetch = Asked | Waiting(flight: nat) | Retrying(access: Tokens) | GaveUp

  datatype Reply = Pair(tokens: Tokens) | NotOk | NetworkError

  datatype Client = Client(store: Option<Tokens>, refreshing: Option<nat>, flights: map<nat, Flight>,
                           fetches: map<nat, Fetch>, authFailures: nat)

  /** A 401: join the refresh in flight, or start flight `f`. */
  function Unauthorized(c: Client, n: nat, f: nat): Client {
    if c.refreshing.Some? then c.(fetches := c.fetches[n := Waiting(c.refreshing.value)])
    else c.(refreshing := Some(f), flights := c.flights[f := ReadingStore], fetches := c.fetches[n := Waiting(f)])
  }

  function StoreRead(c: Client, f: nat): Client {
    if c.store == None || c.store.value.refresh == "" then
      c.(store := None, authFailures := c.authFailures + 1, flights := c.flights[f := Settled(None)])
    else c.(flights := c.flights[f := Posted(c.store.value.refresh)])
  }

  function Replied(c: Client, f: nat, reply: Reply): Client {
    match reply
    case Pair(tokens) => c.(store := Some(tokens), flights := c.flights[f := Settled(Some(tokens))])
    case NotOk => c.(store := None, authFailures := c.authFailures + 1, flights := c.flights[f := Settled(None)])
    case NetworkError => c.(flights := c.flights[f := Settled(None)])
  }

  function Cleared(c: Client, f: nat): Client
    requires f in c.flights && c.flights[f].Settled?
  {
    var access := c.flights[f].access;
    c.(refreshing := None, flights := c.flights - {f},
       fetches := map n | n in c.fetches ::
         if c.fetches[n] != Waiting(f) then c.fetches[n]
         else if access.Some? then Retrying(access.value) else GaveUp)
  }

  class BearerTransport {
    var store: Option<Tokens>
    var refreshing: Option<nat>
    var flights: map<nat, Flight>
    var fetches: map<nat, Fetch>
    var authFailures: nat

    function View(): Client
      reads this
    {
      Client(store, refreshing, flights, fetches, authFailures)
    }

    constructor (store: Option<Tokens>)
      ensures View() == Client(store, None, map[], map[], 0)
    {
      this.store := store;
      refreshing, flights, fetches, authFailures := None, map[], map[], 0;
    }

    /** `refreshAccess`: at most one flight is ever started while another is shared. */
    method RefreshAccess(freshFlight: nat) returns (flight: nat)
      modifies this`refreshing, this`flights
      ensures refreshing == Some(flight)
      ensures old(refreshing).Some? ==> flight == old(refreshing).value && flights == old(flights)
      ensures old(refreshing) == None ==> flight == freshFlight && flights == old(flights)[flight := ReadingStore]
    {
      if refreshing == None {
        flights := flights[freshFlight := ReadingStore];
        refreshing := Some(freshFlight);
      }
      flight := refreshing.value;
    }

    /** The first response of call `n`; anything but a 401 goes straight to the caller. */
    method FetchAnswered(n: nat, status: int, freshFlight: nat) returns (done: bool)
      modifies this
      ensures done <==> status != 401
      ensures done ==> View() == old(View()).(fetches := old(fetches) - {n})
      ensures !done ==> View() == Unauthorized(old(View()), n, freshFlight)
      ensures !done ==> refreshing.Some? && fetches == old(fetches)[n := Waiting(refreshing.value)]
      ensures !done ==> store == old(store) && authFailures == old(authFailures)
    {
      done := status != 401;
      if done {
        fetches := fetches - {n};
      } else {
        var flight := RefreshAccess(freshFlight);
        fetches := fetches[n := Waiting(flight)];
      }
    }

    /** `doRefresh` up to its POST: the token to present, if there is one. */
    method BeginRefresh(f: nat) returns (post: Option<S.RawToken>)
      modifies this
      ensures View() == StoreRead(old(View()), f)
      ensures post.Some? <==> old(store).Some? && old(store).value.refresh != ""
      ensures post.Some? ==> post.value == old(store).value.refresh && store == old(store)
      ensures post == None ==> store == None && authFailures == old(authFailures) + 1
      ensures flights == old(flights)[f := if post.Some? then Posted(post.value) else Settled(None)]
      ensures refreshing == old(refreshing) && fetches == old(fetches)
    {
      if store == None || store.value.refresh == "" {
        store := None;
        authFailures := authFailures + 1;
        flights := flights[f := Settled(None)];
        return None;
      }
      post := Some(store.value.refresh);
      flights := flights[f := Posted(store.value.refresh)];
    }

    /** `doRefresh` after its POST: tokens are cleared on a refusal but never on a network error. */
    method EndRefresh(f: nat, reply: Reply) returns (access: Option<Tokens>)
      modifies this
      ensures View() == Replied(old(View()), f, reply)
      ensures access == match reply case Pair(tokens) => Some(tokens) case _ => None
      ensures store == match reply case Pair(tokens) => Some(tokens) case NotOk => None case NetworkError => old(store)
      ensures authFailures - old(authFailures) == if reply.NotOk? then 1 else 0
      ensures flights == old(flights)[f := Settled(access)]
      ensures refreshing == old(refreshing) && fetches == old(fetches)
    {
      match reply {
        case Pair(tokens) =>
          store := Some(tokens);
          access := Some(tokens);
        case NotOk =>
          store := None;
          authFailures := authFailures + 1;
          access := None;
        case NetworkError =>
          access := None;
      }
      flights := flights[f := Settled(access)];
    }

    /** The `finally` of a settled flight, and the calls it wakes. */
    method Finally(f: nat)
      requires f in flights && flights[f].Settled?
      modifies this
      ensures View() == Cleared(old(View()), f)
      ensures refreshing == None && flights == old(flights) - {f} && fetches.Keys == old(fetches).Keys
      ensures store == old(store) && authFailures == old(authFailures)
      // who waited for it retries with its access token if it brought one, and gives up if not; nobody else moves
      ensures forall n :: n in old(fetches) && old(fetches)[n] == Waiting(f) ==>
                fetches[n] == match old(flights)[f].access case Some(tokens) => Retrying(tokens) case None => GaveUp
      ensures forall n :: n in old(fetches) && old(fetches)[n] != Waiting(f) ==> fetches[n] == old(fetches)[n]
    {
      var access := flights[f].access;
      refreshing := None;
      flights := flights - {f};
      fetches := map n | n in fetches ::
        if fetches[n] != Waiting(f) then fetches[n]
        else if access.Some? then Retrying(access.value) else GaveUp;
    }
  }
}

/**
 One such client composed with the server. Everyone else at the server is free
 to act, but does not hold this client's refresh tokens.
 */
module ClientServer {
  import opened Prelude
  import opened Paths
  import opened BearerClient
  import S = Sessions
  import F = FamilyChains
  import H = SessionHistory

  datatype Sys = Sys(server: S.State, client: Client,
                     held: set<S.RawToken>,             // every refresh token issued to this client
                     mine: map<S.CallId, S.RawToken>,   // every server call of its refreshes, with the token presented
                     adrift: multiset<S.RawToken>,      // requests on the wire whose exchange has ended
                     abandoned: set<S.CallId>)          // calls whose answer can no longer reach the store

  datatype Event =
    | Server(e: S.Event)                       // any server step
    | SignIn(user: S.UserId, epoch: nat, id: S.RowId, token: S.RawToken, family: S.FamilyId)
    | SignOut                                  // the session layer empties the store
    | Ask(n: nat)
    | AnsweredOk(n: nat)
    | Answered401(n: nat, freshFlight: nat)
    | ReadStore(f: nat)
    | Arrive(f: nat, call: S.CallId, found: Option<S.RowId>)
    | ReplyPair(f: nat)
    | ReplyNotOk(f: nat)
    | Lost(f: nat)                             // the exchange ends in the catch branch
    | ArriveLate(raw: S.RawToken, call: S.CallId, found: Option<S.RowId>)   // a request outlives its exchange
    | RunFinally(f: nat)

  predicate InFlight(c: Client, f: nat) { f in c.flights && (c.flights[f].Posted? || c.flights[f].AtServer?) }

  ghost predicate Enabled(s: Sys, e: Event) {
    match e
    case Server(se) =>
      S.Enabled(s.server, se) && (se.BeginRotate? ==> se.raw !in s.held)
    case SignIn(u, epoch, id, token, family) => S.Enabled(s.server, S.Login(u, id, token, family))
    case SignOut => true
    case Ask(n) => n !in s.client.fetches
    case AnsweredOk(n) => n in s.client.fetches && s.client.fetches[n] == Asked
    case Answered401(n, f) => n in s.client.fetches && s.client.fetches[n] == Asked && f !in s.client.flights
    case ReadStore(f) => f in s.client.flights && s.client.flights[f] == ReadingStore
    case Arrive(f, call, found) =>
      && f in s.client.flights && s.client.flights[f].Posted?
      && S.Enabled(s.server, S.BeginRotate(call, s.client.flights[f].raw, found))
    case ReplyPair(f) =>
      && f in s.client.flights && s.client.flights[f].AtServer?
      && s.client.flights[f].call in s.server.calls
      && var pc := s.server.calls[s.client.flights[f].call]; pc.Returned? && pc.result.Some?
    case ReplyNotOk(f) => InFlight(s.client, f)
    case Lost(f) => InFlight(s.client, f)
    case ArriveLate(raw, call, found) => raw in s.adrift && S.Enabled(s.server, S.BeginRotate(call, raw, found))
    case RunFinally(f) => f in s.client.flights && s.client.flights[f].Settled?
  }

  /** A request still on the wire when its exchange ends stays there. */
  function Drift(s: Sys, f: nat): multiset<S.RawToken>
    requires f in s.client.flights
  {
    if s.client.flights[f].Posted? then s.adrift + multiset{s.client.flights[f].raw} else s.adrift
  }

  function Abandon(s: Sys, f: nat): set<S.CallId>
    requires f in s.client.flights
  {
    if s.client.flights[f].AtServer? then s.abandoned + {s.client.flights[f].call} else s.abandoned
  }

  ghost function Step(s: Sys, e: Event): Sys
    requires Enabled(s, e)
  {
    match e
    case Server(se) =>
      s.(server := S.Step(s.server, se),
         held := if se.RunConsume? && se.call in s.mine then s.held + {se.childToken} else s.held)
    case SignIn(u, epoch, id, token, family) =>
      s.(server := S.Step(s.server, S.Login(u, id, token, family)),
         client := s.client.(store := Some(Tokens(u, epoch, token))), held := s.held + {token})
    case SignOut => s.(client := s.client.(store := None))
    case Ask(n) => s.(client := s.client.(fetches := s.client.fetches[n := Asked]))
    case AnsweredOk(n) => s.(client := s.client.(fetches := s.client.fetches - {n}))
    case Answered401(n, f) => s.(client := Unauthorized(s.client, n, f))
    case ReadStore(f) => s.(client := StoreRead(s.client, f))
    case Arrive(f, call, found) =>
      s.(server := S.Step(s.server, S.BeginRotate(call, s.client.flights[f].raw, found)),
         client := s.client.(flights := s.client.flights[f := AtServer(s.client.flights[f].raw, call)]),
         mine := s.mine[call := s.client.flights[f].raw])
    case ReplyPair(f) =>
      var r := s.server.calls[s.client.flights[f].call].result.value;
      s.(client := Replied(s.client, f, Pair(Tokens(r.user, r.epoch, r.token))))
    case ReplyNotOk(f) => s.(client := Replied(s.client, f, NotOk), adrift := Drift(s, f))
    case Lost(f) => s.(client := Replied(s.client, f, NetworkError), adrift := Drift(s, f), abandoned := Abandon(s, f))
    case ArriveLate(raw, call, found) =>
      s.(server := S.Step(s.server, S.BeginRotate(call, raw, found)),
         mine := s.mine[call := raw], adrift := s.adrift - multiset{raw}, abandoned := s.abandoned + {call})
    case RunFinally(f) => s.(client := Cleared(s.client, f))
  }

  ghost predicate Run(ss: seq<Sys>, es: seq<Event>) {
    && |ss| == |es| + 1
    && S.Init(ss[0].server) && ss[0].client == Client(None, None, map[], map[], 0)
    && ss[0].held == {} && ss[0].mine == map[] && ss[0].adrift == multiset{} && ss[0].abandoned == {}
    && forall i {:trigger es[i]} :: 0 <= i < |es| ==> Enabled(ss[i], es[i]) && ss[i + 1] == Step(ss[i], es[i])
  }

  // ------------------------------------------------------------- single flight

  /** Started refreshes are exactly the one the variable `refreshing` names, if any. */
  predicate OneFlight(c: Client) {
    c.flights.Keys == if c.refreshing.Some? then {c.refreshing.value} else {}
  }

  predicate WaitsForCurrent(c: Client, fetch: Fetch) {
    fetch.Waiting? ==> c.refreshing == Some(fetch.flight)
  }

  predicate SharedFlight(c: Client) {
    OneFlight(c) && forall k :: k in c.fetches ==> WaitsForCurrent(c, c.fetches[k])
  }

  lemma StepSharesFlight(s: Sys, e: Event)
    requires Enabled(s, e) && SharedFlight(s.client)
    ensures SharedFlight(Step(s, e).client)
  {
    var c, t := s.client, Step(s, e).client;
    forall k | k in t.fetches ensures WaitsForCurrent(t, t.fetches[k]) {
      if k in c.fetches { assert WaitsForCurrent(c, c.fetches[k]); }
    }
  }

  /** At most one refresh is ever in flight, and every waiting call waits for that one. */
  lemma {:induction false} SingleFlight(ss: seq<Sys>, es: seq<Event>, n: nat)
    requires Run(ss, es) && n < |ss|
    ensures SharedFlight(ss[n].client) && |ss[n].client.flights| <= 1
  {
    if n > 0 {
      SingleFlight(ss, es, n - 1);
      StepSharesFlight(ss[n - 1], es[n - 1]);
    }
    assert |ss[n].client.flights| == |ss[n].client.flights.Keys|;
  }

  // ------------------------------------------------------ what a refresh brings

  /** A settled flight keeps its outcome until its `finally` runs. */
  lemma {:induction false} SettledWaits(ss: seq<Sys>, es: seq<Event>, m: nat, n: nat, f: nat)
    requires Run(ss, es) && m <= n < |ss|
    requires f in ss[m].client.flights && ss[m].client.flights[f].Settled?
    requires forall k :: m <= k < n ==> es[k] != RunFinally(f)
    ensures f in ss[n].client.flights && ss[n].client.flights[f] == ss[m].client.flights[f]
    decreases n - m
  {
    if m < n {
      SettledWaits(ss, es, m, n - 1, f);
      assert Enabled(ss[n - 1], es[n - 1]) && ss[n] == Step(ss[n - 1], es[n - 1]);
      StepKeepsSettled(ss[n - 1], es[n - 1], f);
    }
  }

  lemma StepKeepsSettled(s: Sys, e: Event, f: nat)
    requires Enabled(s, e) && f in s.client.flights && s.client.flights[f].Settled? && e != RunFinally(f)
    ensures f in Step(s, e).client.flights && Step(s, e).client.flights[f] == s.client.flights[f]
  {
  }

  /** The outcome of an exchange: the pair the server answered with, or nothing. */
  ghost function Outcome(s: Sys, e: Event): Option<Tokens>
    requires Enabled(s, e) && (e.ReplyPair? || e.ReplyNotOk? || e.Lost?)
  {
    if e.ReplyPair? then
      var r := s.server.calls[s.client.flights[e.f].call].result.value;
      Some(Tokens(r.user, r.epoch, r.token))
    else None
  }

  /**
   Every call waiting for a refresh when it ends retries with exactly the pair the
   server answered with, or gives up if there was none; the store holds that pair
   once it is answered, and is emptied exactly by a refusal.
   */
  lemma WaitersGetThePair(ss: seq<Sys>, es: seq<Event>, i: nat, j: nat, f: nat, n: nat)
    requires Run(ss, es) && i < j < |es| && es[j] == RunFinally(f)
    requires es[i] == ReplyPair(f) || es[i] == ReplyNotOk(f) || es[i] == Lost(f)
    requires forall k :: i < k < j ==> es[k] != RunFinally(f)
    requires n in ss[j].client.fetches && ss[j].client.fetches[n] == Waiting(f)
    ensures Enabled(ss[i], es[i]) && n in ss[j + 1].client.fetches
    ensures ss[j + 1].client.fetches[n] ==
              match Outcome(ss[i], es[i]) case Some(tokens) => Retrying(tokens) case None => GaveUp
    ensures ss[i + 1].client.store == (if es[i].ReplyPair? then Outcome(ss[i], es[i])
                                       else if es[i].ReplyNotOk? then None else ss[i].client.store)
  {
    assert Enabled(ss[i], es[i]) && ss[i + 1] == Step(ss[i], es[i]);
    assert ss[i + 1].client.flights[f] == Settled(Outcome(ss[i], es[i]));
    SettledWaits(ss, es, i + 1, j, f);
    assert Enabled(ss[j], es[j]) && ss[j + 1] == Step(ss[j], es[j]);
  }

  // ------------------------------------------- who can have used the client's tokens

  predicate ReturnedPair(pc: S.Pc) { pc.Returned? && pc.result.Some? }

  predicate WorksOn(pc: S.Pc, raw: S.RawToken) {
    (pc.Found? || pc.Consume?) && pc.row.token == raw
  }

  ghost predicate TokenSpent(s: S.State, raw: S.RawToken) {
    forall id :: id in s.db.rows && s.db.rows[id].token == raw ==> s.db.rows[id].usedAt.Some?
  }

  /** The call works on this token or on none, and has used it up if it returned a pair. */
  ghost predicate Tracks(s: S.State, raw: S.RawToken, c: S.CallId) {
    && raw in s.issued && c in s.calls
    && (s.calls[c].Found? || s.calls[c].Consume? ==> s.calls[c].row.token == raw)
    && (ReturnedPair(s.calls[c]) ==> TokenSpent(s, raw))
  }

  /** One of the client's own calls was answered with a pair for this token. */
  ghost predicate RotatedByMine(s: Sys, raw: S.RawToken) {
    exists c :: c in s.mine && s.mine[c] == raw && c in s.server.calls && ReturnedPair(s.server.calls[c])
  }

  ghost predicate MineInv(s: Sys) {
    forall c :: c in s.mine ==> s.mine[c] in s.held && Tracks(s.server, s.mine[c], c)
  }

  /** Nobody but the client's own calls works on a token it holds. */
  ghost predicate WorkInv(s: Sys) {
    forall c, raw :: c in s.server.calls && raw in s.held && WorksOn(s.server.calls[c], raw) ==> c in s.mine
  }

  ghost predicate UsedInv(s: Sys) {
    forall id :: id in s.server.db.rows && s.server.db.rows[id].token in s.held && s.server.db.rows[id].usedAt.Some?
      ==> RotatedByMine(s, s.server.db.rows[id].token)
  }

  /** No request was ever made with this token, nor is one on the wire. */
  ghost predicate Unpresented(s: Sys, raw: S.RawToken) {
    raw in s.held && raw !in s.adrift && forall c :: c in s.mine ==> s.mine[c] != raw
  }

  ghost predicate FlightInv(s: Sys, flight: Flight) {
    match flight
    case Posted(raw) => raw in s.held && forall c :: c in s.mine && s.mine[c] == raw ==> c in s.abandoned
    case AtServer(raw, call) =>
      && call in s.mine && s.mine[call] == raw && call in s.server.calls
      && (ReturnedPair(s.server.calls[call]) ==> Unpresented(s, s.server.calls[call].result.value.token))
    case _ => true
  }

  /** The call is the one the flight in progress waits for. */
  predicate Awaited(c: Client, call: S.CallId) {
    exists f :: f in c.flights && c.flights[f].AtServer? && c.flights[f].call == call
  }

  ghost predicate StoreInv(s: Sys) {
    s.client.store.Some? ==>
      var raw := s.client.store.value.refresh;
      raw in s.held && forall c :: c in s.mine && s.mine[c] == raw ==> c in s.abandoned || Awaited(s.client, c)
  }

  ghost predicate Inv(s: Sys) {
    && F.Inv(s.server) && OneFlight(s.client) && s.held <= s.server.issued
    && (forall raw :: raw in s.adrift ==> raw in s.held)
    && MineInv(s) && WorkInv(s) && UsedInv(s) && StoreInv(s)
    && forall f :: f in s.client.flights ==> FlightInv(s, s.client.flights[f])
  }

  // ---------------------------------------------------------- one server step

  /** A row that is used after a step was used before, or the step is the transaction that rotates it. */
  lemma NewlyUsed(s: S.State, e: S.Event, id: S.RowId)
    requires F.Inv(s) && S.Enabled(s, e) && id in S.Step(s, e).db.rows
    requires S.Step(s, e).db.rows[id].usedAt.Some? && S.Step(s, e).db.rows[id].token in s.issued
    ensures id in s.db.rows && s.db.rows[id].token == S.Step(s, e).db.rows[id].token
    ensures s.db.rows[id].usedAt.Some? ||
            (e.RunConsume? && WorksOn(s.calls[e.call], s.db.rows[id].token) && ReturnedPair(S.Step(s, e).calls[e.call]))
  {
    H.StepKeepsRow(s, e, id);
    H.OnlyConsumeUses(s, e, id);
    if e.RunConsume? { assert F.PcInv(s, s.calls[e.call]); }
  }

  /** A spent token stays spent: its row stays used, and no new row gets it. */
  lemma SpentStays(s: S.State, e: S.Event, raw: S.RawToken)
    requires F.Inv(s) && S.Enabled(s, e) && raw in s.issued && TokenSpent(s, raw)
    ensures TokenSpent(S.Step(s, e), raw)
  {
    var t := S.Step(s, e);
    forall id | id in t.db.rows && t.db.rows[id].token == raw ensures t.db.rows[id].usedAt.Some? {
      H.StepKeepsRow(s, e, id);
      H.RowEvolves(s, e, id);
    }
  }

  /** The transaction that returns a pair has spent the token its call works on. */
  lemma ConsumeSpends(s: S.State, e: S.Event, raw: S.RawToken)
    requires F.Inv(s) && S.Enabled(s, e) && e.RunConsume? && s.calls[e.call].row.token == raw
    requires ReturnedPair(S.Step(s, e).calls[e.call])
    ensures TokenSpent(S.Step(s, e), raw)
  {
    var t := S.Step(s, e);
    assert F.PcInv(s, s.calls[e.call]);
    forall id | id in t.db.rows && t.db.rows[id].token == raw ensures t.db.rows[id].usedAt.Some? {
      H.StepKeepsRow(s, e, id);
    }
  }

  lemma TracksStay(s: S.State, e: S.Event, raw: S.RawToken, c: S.CallId)
    requires F.Inv(s) && S.Enabled(s, e) && Tracks(s, raw, c)
    ensures Tracks(S.Step(s, e), raw, c)
    ensures ReturnedPair(s.calls[c]) ==> S.Step(s, e).calls[c] == s.calls[c]
  {
    if ReturnedPair(s.calls[c]) {
      SpentStays(s, e, raw);
    } else if e.RunConsume? && e.call == c && ReturnedPair(S.Step(s, e).calls[c]) {
      ConsumeSpends(s, e, raw);
    }
  }

  /** Only the beginning of a rotation makes a call start working on a token. */
  lemma WorkersStay(s: S.State, e: S.Event, raw: S.RawToken, c: S.CallId)
    requires S.Enabled(s, e) && c in S.Step(s, e).calls && WorksOn(S.Step(s, e).calls[c], raw)
    ensures (c in s.calls && WorksOn(s.calls[c], raw)) || (e.BeginRotate? && e.call == c && e.raw == raw)
  {
  }

  /** What a rotation transaction mints is new. */
  lemma MintIsFresh(s: S.State, e: S.Event)
    requires F.Inv(s) && S.Enabled(s, e) && e.RunConsume?
    ensures e.childToken !in s.issued && e.childToken in S.Step(s, e).issued
    ensures ReturnedPair(S.Step(s, e).calls[e.call]) ==>
              S.Step(s, e).calls[e.call].result.value.token == e.childToken
  {
  }

  // ---------------------------------------------------------- preservation

  /** The server step of an event that has one. */
  function ServerPart(s: Sys, e: Event): Option<S.Event> {
    match e
    case Server(se) => Some(se)
    case SignIn(u, epoch, id, token, family) => Some(S.Login(u, id, token, family))
    case Arrive(f, call, found) =>
      if f in s.client.flights && s.client.flights[f].Posted?
      then Some(S.BeginRotate(call, s.client.flights[f].raw, found)) else None
    case ArriveLate(raw, call, found) => Some(S.BeginRotate(call, raw, found))
    case _ => None
  }

  /** What an event with a server step does to the history the invariant speaks of. */
  lemma ServerPartOf(s: Sys, e: Event)
    requires Inv(s) && Enabled(s, e) && ServerPart(s, e).Some?
    ensures
      var t, se := Step(s, e), ServerPart(s, e).value;
      && S.Enabled(s.server, se) && t.server == S.Step(s.server, se)
      && s.held <= t.held && (forall raw :: raw in t.held && raw !in s.held ==> raw !in s.server.issued)
      && (forall c :: c in s.mine ==> c in t.mine && t.mine[c] == s.mine[c])
      && (forall c :: c in t.mine && c !in s.mine ==>
            se == S.BeginRotate(c, t.mine[c], se.found) && c !in s.server.calls && t.mine[c] in s.held)
      && (se.BeginRotate? && se.raw in s.held ==> se.call in t.mine)
  {
    if e.Arrive? { assert FlightInv(s, s.client.flights[e.f]); }
    if e.Server? && e.e.RunConsume? { MintIsFresh(s.server, e.e); }
  }

  lemma MineStays(s: Sys, e: Event)
    requires Inv(s) && Enabled(s, e) && ServerPart(s, e).Some?
    ensures MineInv(Step(s, e))
  {
    var t, se := Step(s, e), ServerPart(s, e).value;
    ServerPartOf(s, e);
    forall c | c in t.mine ensures t.mine[c] in t.held && Tracks(t.server, t.mine[c], c) {
      if c in s.mine { TracksStay(s.server, se, s.mine[c], c); }
    }
  }

  lemma WorkStays(s: Sys, e: Event)
    requires Inv(s) && Enabled(s, e) && ServerPart(s, e).Some?
    ensures WorkInv(Step(s, e))
  {
    var t, se := Step(s, e), ServerPart(s, e).value;
    ServerPartOf(s, e);
    forall c, raw | c in t.server.calls && raw in t.held && WorksOn(t.server.calls[c], raw) ensures c in t.mine {
      WorkersStay(s.server, se, raw, c);
      if c in s.server.calls { assert F.PcInv(s.server, s.server.calls[c]); }
    }
  }

  lemma UsedStays(s: Sys, e: Event)
    requires Inv(s) && Enabled(s, e) && ServerPart(s, e).Some?
    ensures UsedInv(Step(s, e))
  {
    var t, se := Step(s, e), ServerPart(s, e).value;
    ServerPartOf(s, e);
    forall id | id in t.server.db.rows && t.server.db.rows[id].token in t.held && t.server.db.rows[id].usedAt.Some?
      ensures RotatedByMine(t, t.server.db.rows[id].token)
    {
      var raw := t.server.db.rows[id].token;
      H.StepKeepsRow(s.server, se, id);
      if raw in s.held {
        NewlyUsed(s.server, se, id);
        if s.server.db.rows[id].usedAt.Some? {
          var c :| c in s.mine && s.mine[c] == raw && c in s.server.calls && ReturnedPair(s.server.calls[c]);
          TracksStay(s.server, se, raw, c);
        } else {
          assert Tracks(s.server, s.mine[se.call], se.call);
        }
      } else {
        NewTokenIsUnused(s.server, se, id);
      }
    }
  }

  /** A row whose token was issued by this very step is unused. */
  lemma NewTokenIsUnused(s: S.State, e: S.Event, id: S.RowId)
    requires F.Inv(s) && S.Enabled(s, e) && id in S.Step(s, e).db.rows && S.Step(s, e).db.rows[id].token !in s.issued
    ensures S.Step(s, e).db.rows[id].usedAt == None
  {
    if id in s.db.rows { H.RowEvolves(s, e, id); }
  }

  /** A token never presented stays so: others do not hold it, and no request for it is on the wire. */
  lemma UnpresentedStays(s: Sys, e: Event, raw: S.RawToken)
    requires Inv(s) && Enabled(s, e) && ServerPart(s, e).Some? && !e.Arrive? && Unpresented(s, raw)
    ensures Unpresented(Step(s, e), raw)
  {
    ServerPartOf(s, e);
  }

  /** The pair a transaction of the client's mints holds such a token. */
  lemma MintIsUnpresented(s: Sys, e: Event)
    requires Inv(s) && Enabled(s, e) && e.Server? && e.e.RunConsume? && e.e.call in s.mine
    ensures Unpresented(Step(s, e), e.e.childToken)
  {
    MintIsFresh(s.server, e.e);
  }

  /** An exchange in progress, across a server step that is not its own arrival. */
  lemma FlightStays(s: Sys, e: Event, f: nat)
    requires Inv(s) && Enabled(s, e) && ServerPart(s, e).Some? && !e.Arrive? && f in s.client.flights
    ensures FlightInv(Step(s, e), s.client.flights[f])
  {
    var t, se := Step(s, e), ServerPart(s, e).value;
    ServerPartOf(s, e);
    var flight := s.client.flights[f];
    assert FlightInv(s, flight);
    if flight.AtServer? {
      TracksStay(s.server, se, flight.raw, flight.call);
      if ReturnedPair(s.server.calls[flight.call]) {
        UnpresentedStays(s, e, s.server.calls[flight.call].result.value.token);
      } else if ReturnedPair(t.server.calls[flight.call]) {
        MintIsFresh(s.server, se);
        MintIsUnpresented(s, e);
      }
    }
  }

  lemma StoreStays(s: Sys, e: Event)
    requires Inv(s) && Enabled(s, e) && ServerPart(s, e).Some? && !e.Arrive?
    ensures StoreInv(Step(s, e))
  {
    var t := Step(s, e);
    ServerPartOf(s, e);
    if t.client.store.Some? {
      forall c | c in t.mine && t.mine[c] == t.client.store.value.refresh
        ensures c in t.abandoned || Awaited(t.client, c)
      {
        if !e.SignIn? && c in s.mine && c !in s.abandoned {
          var f :| f in s.client.flights && s.client.flights[f].AtServer? && s.client.flights[f].call == c;
          assert t.client.flights[f] == s.client.flights[f];
        }
      }
    }
  }

  lemma ServerStepKeepsInv(s: Sys, e: Event)
    requires Inv(s) && Enabled(s, e) && ServerPart(s, e).Some? && !e.Arrive?
    ensures Inv(Step(s, e))
  {
    var t := Step(s, e);
    ServerPartOf(s, e);
    H.StepKeepsInv(s.server, ServerPart(s, e).value);
    H.StepEvolves(s.server, ServerPart(s, e).value);
    MineStays(s, e);
    WorkStays(s, e);
    UsedStays(s, e);
    StoreStays(s, e);
    forall f | f in t.client.flights ensures FlightInv(t, t.client.flights[f]) { FlightStays(s, e, f); }
  }

  /** The arrival of the exchange in progress: its call is the one new call on its token. */
  lemma ArriveKeepsInv(s: Sys, e: Event)
    requires Inv(s) && Enabled(s, e) && e.Arrive?
    ensures Inv(Step(s, e))
  {
    var t := Step(s, e);
    var raw := s.client.flights[e.f].raw;
    ServerPartOf(s, e);
    H.StepKeepsInv(s.server, ServerPart(s, e).value);
    MineStays(s, e);
    WorkStays(s, e);
    UsedStays(s, e);
    assert t.client.flights[e.f] == AtServer(raw, e.call);
    assert FlightInv(t, t.client.flights[e.f]);
    assert forall f :: f in s.client.flights ==> f == e.f;
    assert forall c :: !Awaited(s.client, c);
    if s.client.store.Some? {
      forall c | c in t.mine && t.mine[c] == s.client.store.value.refresh ensures c in t.abandoned || Awaited(t.client, c) {
        if c !in s.mine { assert t.client.flights[e.f].call == c; }
      }
    }
  }

  /** Events that leave server, calls and history alone keep the invariants that speak of nothing else. */
  lemma SameServerKeeps(s: Sys, t: Sys)
    requires Inv(s) && t.server == s.server && t.held == s.held && t.mine == s.mine
    ensures MineInv(t) && WorkInv(t) && UsedInv(t)
  {
    forall id | id in t.server.db.rows && t.server.db.rows[id].token in t.held && t.server.db.rows[id].usedAt.Some?
      ensures RotatedByMine(t, t.server.db.rows[id].token)
    {
      assert RotatedByMine(s, s.server.db.rows[id].token);
    }
  }

  /** The pair of an answered exchange holds a token never presented. */
  lemma ReplyPairKeepsInv(s: Sys, e: Event)
    requires Inv(s) && Enabled(s, e) && e.ReplyPair?
    ensures Inv(Step(s, e))
  {
    var t := Step(s, e);
    SameServerKeeps(s, t);
    assert FlightInv(s, s.client.flights[e.f]);
    assert forall f :: f in t.client.flights ==> f == e.f;
  }

  /** A refusal empties the store; a loss abandons the call, or sets the request adrift. */
  lemma ExchangeEndKeepsInv(s: Sys, e: Event)
    requires Inv(s) && Enabled(s, e) && (e.ReplyNotOk? || e.Lost?)
    ensures Inv(Step(s, e))
  {
    var t := Step(s, e);
    SameServerKeeps(s, t);
    assert FlightInv(s, s.client.flights[e.f]);
    assert forall f :: f in t.client.flights ==> f == e.f;
    if t.client.store.Some? {
      forall c | c in t.mine && t.mine[c] == t.client.store.value.refresh ensures c in t.abandoned {
        if c !in s.abandoned { assert Awaited(s.client, c); }
      }
    }
  }

  /** Nothing but the flights' phases or the store's absence changes. */
  lemma ClientStepKeepsStore(s: Sys, e: Event)
    requires Inv(s) && Enabled(s, e) && ServerPart(s, e) == None
    requires !e.ReplyPair? && !e.ReplyNotOk? && !e.Lost?
    ensures StoreInv(Step(s, e))
  {
    var t := Step(s, e);
    if t.client.store.Some? {
      forall c | c in t.mine && t.mine[c] == t.client.store.value.refresh ensures c in t.abandoned || Awaited(t.client, c) {
        if c !in s.abandoned {
          var f :| f in s.client.flights && s.client.flights[f].AtServer? && s.client.flights[f].call == c;
          assert t.client.flights[f] == s.client.flights[f];
        }
      }
    }
  }

  lemma ClientStepKeepsFlight(s: Sys, e: Event, f: nat)
    requires Inv(s) && Enabled(s, e) && ServerPart(s, e) == None && f in Step(s, e).client.flights
    requires !e.ReplyPair? && !e.ReplyNotOk? && !e.Lost?
    ensures FlightInv(Step(s, e), Step(s, e).client.flights[f])
  {
    if f in s.client.flights { assert FlightInv(s, s.client.flights[f]); }
  }

  lemma ClientStepKeepsInv(s: Sys, e: Event)
    requires Inv(s) && Enabled(s, e) && ServerPart(s, e) == None
    requires !e.ReplyPair? && !e.ReplyNotOk? && !e.Lost?
    ensures Inv(Step(s, e))
  {
    var t := Step(s, e);
    SameServerKeeps(s, t);
    ClientStepKeepsStore(s, e);
    forall f | f in t.client.flights ensures FlightInv(t, t.client.flights[f]) { ClientStepKeepsFlight(s, e, f); }
  }

  lemma {:induction false} RunKeepsInv(ss: seq<Sys>, es: seq<Event>, n: nat)
    requires Run(ss, es) && n < |ss|
    ensures Inv(ss[n])
  {
    if n == 0 {
      forall f ensures F.HasChain(ss[0].server.db.rows, f) { F.ChainEmpty(ss[0].server.db.rows, f); }
    } else {
      RunKeepsInv(ss, es, n - 1);
      var s, e := ss[n - 1], es[n - 1];
      assert Enabled(s, e) && ss[n] == Step(s, e);
      if e.Arrive? { ArriveKeepsInv(s, e); }
      else if ServerPart(s, e).Some? { ServerStepKeepsInv(s, e); }
      else if e.ReplyPair? { ReplyPairKeepsInv(s, e); }
      else if e.ReplyNotOk? || e.Lost? { ExchangeEndKeepsInv(s, e); }
      else { ClientStepKeepsInv(s, e); }
    }
  }

  // ------------------------------------------------ when the client presents a used token

  /**
   The client gives up on call `c` for token `raw`: its exchange is lost while the
   call is at the server, or its request reaches the server after the exchange.
   */
  predicate GivesUp(s: Sys, e: Event, raw: S.RawToken, c: S.CallId) {
    match e
    case Lost(f) => f in s.client.flights && s.client.flights[f] == AtServer(raw, c)
    case ArriveLate(r, x, _) => r == raw && x == c
    case _ => false
  }

  /** A call keeps the token it was made with. */
  lemma StepKeepsMine(s: Sys, e: Event, c: S.CallId)
    requires Inv(s) && Enabled(s, e) && c in s.mine
    ensures c in Step(s, e).mine && Step(s, e).mine[c] == s.mine[c]
  {
    assert Tracks(s.server, s.mine[c], c);
  }

  /** A call is abandoned only by giving up on it. */
  lemma StepAbandons(s: Sys, e: Event, c: S.CallId)
    requires Inv(s) && Enabled(s, e) && c in Step(s, e).abandoned && c !in s.abandoned
    ensures c in Step(s, e).mine && GivesUp(s, e, Step(s, e).mine[c], c)
  {
    if e.Lost? { assert FlightInv(s, s.client.flights[e.f]); }
  }

  /** Giving up on a call abandons it for the token it was made with. */
  lemma GivingUpAbandons(s: Sys, e: Event, raw: S.RawToken, c: S.CallId)
    requires Inv(s) && Enabled(s, e) && GivesUp(s, e, raw, c)
    ensures c in Step(s, e).abandoned && c in Step(s, e).mine && Step(s, e).mine[c] == raw
  {
    if e.Lost? { assert FlightInv(s, s.client.flights[e.f]); }
  }

  /** An abandoned call stays so. */
  lemma AbandonedStays(s: Sys, e: Event, c: S.CallId)
    requires Enabled(s, e) && c in s.abandoned
    ensures c in Step(s, e).abandoned
  {
  }

  lemma {:induction false} AbandonedWasGivenUp(ss: seq<Sys>, es: seq<Event>, n: nat, c: S.CallId) returns (m: nat)
    requires Run(ss, es) && n < |ss| && c in ss[n].abandoned
    ensures m < n && c in ss[n].mine && GivesUp(ss[m], es[m], ss[n].mine[c], c)
  {
    assert n > 0;
    var s, e := ss[n - 1], es[n - 1];
    assert Enabled(s, e) && ss[n] == Step(s, e);
    RunKeepsInv(ss, es, n - 1);
    if c in s.abandoned {
      m := AbandonedWasGivenUp(ss, es, n - 1, c);
      StepKeepsMine(s, e, c);
    } else {
      m := n - 1;
      StepAbandons(s, e, c);
    }
  }

  lemma {:induction false} RunKeepsAbandoned(ss: seq<Sys>, es: seq<Event>, m: nat, n: nat, raw: S.RawToken, c: S.CallId)
    requires Run(ss, es) && m <= n < |ss|
    requires c in ss[m].abandoned && c in ss[m].mine && ss[m].mine[c] == raw
    ensures c in ss[n].abandoned && c in ss[n].mine && ss[n].mine[c] == raw
    decreases n - m
  {
    if m < n {
      RunKeepsAbandoned(ss, es, m, n - 1, raw, c);
      RunKeepsInv(ss, es, n - 1);
      assert Enabled(ss[n - 1], es[n - 1]) && ss[n] == Step(ss[n - 1], es[n - 1]);
      StepKeepsMine(ss[n - 1], es[n - 1], c);
      AbandonedStays(ss[n - 1], es[n - 1], c);
    }
  }

  lemma GivenUpStaysAbandoned(ss: seq<Sys>, es: seq<Event>, m: nat, n: nat, raw: S.RawToken, c: S.CallId)
    requires Run(ss, es) && m < n < |ss| && GivesUp(ss[m], es[m], raw, c)
    ensures c in ss[n].abandoned && c in ss[n].mine && ss[n].mine[c] == raw
  {
    assert Enabled(ss[m], es[m]) && ss[m + 1] == Step(ss[m], es[m]);
    RunKeepsInv(ss, es, m);
    GivingUpAbandons(ss[m], es[m], raw, c);
    RunKeepsAbandoned(ss, es, m + 1, n, raw, c);
  }

  /** A token about to be presented is used exactly when an abandoned call for it was answered with a pair. */
  lemma PostedTokenIsUsedIff(s: Sys, f: nat, id: S.RowId)
    requires Inv(s) && f in s.client.flights && s.client.flights[f].Posted?
    requires id in s.server.db.rows && s.server.db.rows[id].token == s.client.flights[f].raw
    ensures s.server.db.rows[id].usedAt.Some? <==>
            exists c :: c in s.abandoned && c in s.mine && s.mine[c] == s.client.flights[f].raw
                        && c in s.server.calls && ReturnedPair(s.server.calls[c])
  {
    var raw := s.client.flights[f].raw;
    assert FlightInv(s, s.client.flights[f]);
    if s.server.db.rows[id].usedAt.Some? {
      assert RotatedByMine(s, raw);
    }
    forall c | c in s.mine && s.mine[c] == raw && ReturnedPair(s.server.calls[c]) ensures s.server.db.rows[id].usedAt.Some? {
      assert Tracks(s.server, raw, c);
    }
  }

  /**
   Over every run: the token a refresh presents has been used if and only if the
   client had given up on an earlier request for it that the server has answered
   with a pair.
   */
  lemma PresentsUsedIffGaveUp(ss: seq<Sys>, es: seq<Event>, n: nat, raw: S.RawToken)
    requires Run(ss, es) && n < |es| && es[n].Arrive? && es[n].found.Some?
    requires es[n].f in ss[n].client.flights && ss[n].client.flights[es[n].f] == Posted(raw)
    ensures es[n].found.value in ss[n].server.db.rows
    ensures ss[n].server.db.rows[es[n].found.value].usedAt.Some? <==>
            exists m, c :: 0 <= m < n && GivesUp(ss[m], es[m], raw, c)
                           && c in ss[n].server.calls && ReturnedPair(ss[n].server.calls[c])
  {
    var s, id := ss[n], es[n].found.value;
    assert Enabled(s, es[n]);
    RunKeepsInv(ss, es, n);
    PostedTokenIsUsedIff(s, es[n].f, id);
    if s.server.db.rows[id].usedAt.Some? {
      var c :| c in s.abandoned && c in s.mine && s.mine[c] == raw && c in s.server.calls && ReturnedPair(s.server.calls[c]);
      var m := AbandonedWasGivenUp(ss, es, n, c);
    }
    forall m, c | 0 <= m < n && GivesUp(ss[m], es[m], raw, c) ensures c in s.abandoned && c in s.mine && s.mine[c] == raw {
      GivenUpStaysAbandoned(ss, es, m, n, raw, c);
    }
  }

  /**
   In every reachable state: a stored token issued to the client is used if and
   only if one of the client's own requests for it, timely or late, was answered
   with a pair.
   */
  lemma UsedIffRotatedByMine(ss: seq<Sys>, es: seq<Event>, n: nat, id: S.RowId)
    requires Run(ss, es) && n < |ss| && id in ss[n].server.db.rows && ss[n].server.db.rows[id].token in ss[n].held
    ensures ss[n].server.db.rows[id].usedAt.Some? <==> RotatedByMine(ss[n], ss[n].server.db.rows[id].token)
  {
    RunKeepsInv(ss, es, n);
    var raw := ss[n].server.db.rows[id].token;
    forall c | c in ss[n].mine && ss[n].mine[c] == raw && ReturnedPair(ss[n].server.calls[c])
      ensures ss[n].server.db.rows[id].usedAt.Some?
    {
      assert Tracks(ss[n].server, raw, c);
    }
  }

  // ------------------------------------------------------------ no self-inflicted replay

  /** A call that has not met, and cannot meet, the replay branch. */
  predicate Clean(pc: S.Pc) {
    match pc
    case Found(_, row) => row.usedAt == None
    case Consume(_, row) => row.usedAt == None
    case Returned(_) => true
    case _ => false
  }

  /** One server step on a call that has only met unused rows. */
  lemma CleanStays(s: S.State, e: S.Event, c: S.CallId)
    requires F.Inv(s) && S.Enabled(s, e) && c in s.calls && Clean(s.calls[c])
    ensures c in S.Step(s, e).calls && Clean(S.Step(s, e).calls[c])
    ensures s.calls[c] == S.Returned(None) ==> S.Step(s, e).calls[c] == s.calls[c]
  {
  }

  /**
   The exchange lost nothing the client needed: the server had already answered it
   with a refusal, or its request never reaches the server.
   */
  ghost predicate Harmless(s: Sys, e: Event) {
    match e
    case Lost(f) => f in s.client.flights && s.client.flights[f].AtServer? ==>
      s.client.flights[f].call in s.server.calls && s.server.calls[s.client.flights[f].call] == S.Returned(None)
    case ArriveLate(_, _, _) => false
    case _ => true
  }

  /** Every own call has only met unused rows, and those given up on were refused. */
  ghost predicate AllClean(s: Sys) {
    && (forall c :: c in s.mine ==> c in s.server.calls && Clean(s.server.calls[c]))
    && (forall c :: c in s.abandoned ==> c in s.server.calls && s.server.calls[c] == S.Returned(None))
  }

  lemma ServerStepStaysClean(s: Sys, e: Event)
    requires Inv(s) && AllClean(s) && Enabled(s, e) && (e.Server? || e.SignIn?)
    ensures AllClean(Step(s, e))
  {
    var se := ServerPart(s, e).value;
    forall c | c in s.mine ensures c in Step(s, e).server.calls && Clean(Step(s, e).server.calls[c]) { CleanStays(s.server, se, c); }
    forall c | c in s.abandoned ensures c in Step(s, e).server.calls && Step(s, e).server.calls[c] == S.Returned(None) {
      CleanStays(s.server, se, c);
    }
  }

  lemma ArrivesClean(s: Sys, e: Event)
    requires Inv(s) && AllClean(s) && Enabled(s, e) && e.Arrive?
    ensures e.found.Some? ==> s.server.db.rows[e.found.value].usedAt == None
    ensures AllClean(Step(s, e))
  {
    assert FlightInv(s, s.client.flights[e.f]);
    if e.found.Some? { PostedTokenIsUsedIff(s, e.f, e.found.value); }
  }

  /** A loss abandons at most the call of its exchange, which was refused. */
  lemma ClientStepStaysClean(s: Sys, e: Event)
    requires Inv(s) && AllClean(s) && Enabled(s, e) && ServerPart(s, e) == None && Harmless(s, e)
    ensures AllClean(Step(s, e))
  {
    forall c | c in Step(s, e).abandoned ensures c in s.server.calls && s.server.calls[c] == S.Returned(None) {
      if c !in s.abandoned { assert FlightInv(s, s.client.flights[e.f]); }
    }
  }

  lemma StepStaysClean(s: Sys, e: Event)
    requires Inv(s) && AllClean(s) && Enabled(s, e) && Harmless(s, e)
    ensures AllClean(Step(s, e))
  {
    if e.Arrive? { ArrivesClean(s, e); }
    else if e.Server? || e.SignIn? { ServerStepStaysClean(s, e); }
    else { ClientStepStaysClean(s, e); }
  }

  /** Up to step `n` no exchange was lost harmfully. */
  ghost predicate NoHarm(ss: seq<Sys>, es: seq<Event>, n: nat) {
    n <= |es| <= |ss| && forall i {:trigger es[i]} :: 0 <= i < n ==> Harmless(ss[i], es[i])
  }

  lemma {:induction false} RunStaysClean(ss: seq<Sys>, es: seq<Event>, n: nat)
    requires Run(ss, es) && n < |ss| && NoHarm(ss, es, n)
    ensures AllClean(ss[n])
  {
    if n > 0 {
      assert Enabled(ss[n - 1], es[n - 1]) && ss[n] == Step(ss[n - 1], es[n - 1]) && Harmless(ss[n - 1], es[n - 1]);
      RunStaysClean(ss, es, n - 1);
      RunKeepsInv(ss, es, n - 1);
      StepStaysClean(ss[n - 1], es[n - 1]);
    }
  }

  /** The client's own step of the server's that could meet a used row or end a family. */
  ghost predicate OwnReplayStep(s: Sys, e: Event) {
    e.Server? && (e.e.RunWipe? || e.e.LookChild?) && e.e.call in s.mine
  }

  /** In a state whose own calls are all clean, no step presents a used token or replays. */
  lemma CleanNeverReplays(s: Sys, e: Event)
    requires Inv(s) && AllClean(s) && Enabled(s, e)
    ensures e.Arrive? && e.found.Some? ==> s.server.db.rows[e.found.value].usedAt == None
    ensures !OwnReplayStep(s, e)
  {
    if e.Arrive? { ArrivesClean(s, e); }
  }

  /**
   As long as no exchange was lost harmfully, every token the client presents is
   stored unused or not stored at all, and none of its calls ever looks for a
   fork or wipes a family.
   */
  lemma ClientNeverReplays(ss: seq<Sys>, es: seq<Event>, n: nat)
    requires Run(ss, es) && n < |es| && NoHarm(ss, es, n)
    ensures Enabled(ss[n], es[n])
    ensures es[n].Arrive? && es[n].found.Some? ==>
              ss[n].server.db.rows[es[n].found.value].usedAt == None
    ensures !OwnReplayStep(ss[n], es[n])
  {
    RunStaysClean(ss, es, n);
    RunKeepsInv(ss, es, n);
    CleanNeverReplays(ss[n], es[n]);
  }

  // -------------------------------------------------------- what a lost answer leads to

  /** The refresh a client whose store was not cleared makes next, alone with the server, from time `later`. */
  ghost function NextRefresh(s: Sys, n: nat, f: nat, call: S.CallId, id: S.RowId, later: int): Sys
    requires n !in s.client.fetches && f !in s.client.flights && s.client.refreshing == None
    requires s.client.store.Some? && s.client.store.value.refresh != ""
    requires call !in s.server.calls && S.LooksUp(s.server.db.rows, s.client.store.value.refresh, Some(id))
    requires s.server.now <= later
  {
    var s1 := Step(s, Server(S.Tick(later)));
    var s2 := Step(s1, Ask(n));
    var s3 := Step(s2, Answered401(n, f));
    var s4 := Step(s3, ReadStore(f));
    var s5 := Step(s4, Arrive(f, call, Some(id)));
    Step(s5, Server(S.Decide(call)))
  }

  /**
   In any run: when the answer to a rotation is lost, the token still in the store
   is spent, and presenting it after the grace window sends the client's own call
   to wipe its family.
   */
  lemma LostAnswerWipesOwnFamily(ss: seq<Sys>, es: seq<Event>, i: nat, n: nat, lost: nat, f: nat,
                                 call: S.CallId, next: S.CallId, id: S.RowId, later: int)
    requires Run(ss, es) && i < |ss|
    requires var s := ss[i];
      && lost in s.client.flights && s.client.flights[lost].AtServer? && s.client.flights[lost].call == call
      && call in s.server.calls && ReturnedPair(s.server.calls[call])
      && s.client.store.Some? && s.client.store.value.refresh == s.client.flights[lost].raw != ""
      && id in s.server.db.rows && s.server.db.rows[id].token == s.client.flights[lost].raw
      && s.server.now <= later && next !in s.server.calls && n !in s.client.fetches
      && (s.server.db.rows[id].usedAt.Some? ==> later > s.server.db.rows[id].usedAt.value + S.REUSE_GRACE_MS)
    ensures
      var s := ss[i];
      var t := Step(Step(s, Lost(lost)), RunFinally(lost));
      && t.client.refreshing == None && t.client.flights == map[] && t.client.store == s.client.store
      && NextRefresh(t, n, f, next, id, later).server.calls[next] == S.Wipe(s.server.db.rows[id].family)
  {
    var s := ss[i];
    RunKeepsInv(ss, es, i);
    assert FlightInv(s, s.client.flights[lost]);
    assert Tracks(s.server, s.mine[call], call);
    SpentTokenIsWiped(s, n, lost, f, next, id, later);
  }

  lemma SpentTokenIsWiped(s: Sys, n: nat, lost: nat, f: nat, next: S.CallId, id: S.RowId, later: int)
    requires OneFlight(s.client) && lost in s.client.flights && s.client.flights[lost].AtServer?
    requires s.client.store.Some? && s.client.store.value.refresh == s.client.flights[lost].raw != ""
    requires id in s.server.db.rows && s.server.db.rows[id].token == s.client.flights[lost].raw
    requires s.server.db.rows[id].usedAt.Some? && later > s.server.db.rows[id].usedAt.value + S.REUSE_GRACE_MS
    requires s.server.now <= later && next !in s.server.calls && n !in s.client.fetches
    ensures
      var t := Step(Step(s, Lost(lost)), RunFinally(lost));
      && t.client.refreshing == None && t.client.flights == map[] && t.client.store == s.client.store
      && NextRefresh(t, n, f, next, id, later).server.calls[next] == S.Wipe(s.server.db.rows[id].family)
  {
    var t := Step(Step(s, Lost(lost)), RunFinally(lost));
    assert t.client.flights == map[] && t.client.fetches.Keys == s.client.fetches.Keys;
    SpentTokenGoesToWipe(t, n, f, next, id, later);
  }

  /** The next refresh of a client at rest whose stored token was used longer ago than the grace window. */
  lemma SpentTokenGoesToWipe(t: Sys, n: nat, f: nat, next: S.CallId, id: S.RowId, later: int)
    requires t.client.flights == map[] && t.client.refreshing == None && n !in t.client.fetches
    requires t.client.store.Some? && t.client.store.value.refresh != ""
    requires id in t.server.db.rows && t.server.db.rows[id].token == t.client.store.value.refresh
    requires t.server.db.rows[id].usedAt.Some? && later > t.server.db.rows[id].usedAt.value + S.REUSE_GRACE_MS
    requires t.server.now <= later && next !in t.server.calls
    ensures NextRefresh(t, n, f, next, id, later).server.calls[next] == S.Wipe(t.server.db.rows[id].family)
  {
    var s3 := Step(Step(Step(t, Server(S.Tick(later))), Ask(n)), Answered401(n, f));
    assert s3.client.flights[f] == ReadingStore && s3.client.store == t.client.store;
    assert s3.server == t.server.(now := later);
    StoredTokenIsFound(s3, f, next, id);
  }

  /** A started refresh, from its store read to its arrival. */
  lemma StoredTokenIsFound(s: Sys, f: nat, next: S.CallId, id: S.RowId)
    requires f in s.client.flights && s.client.flights[f] == ReadingStore
    requires s.client.store.Some? && s.client.store.value.refresh != "" && next !in s.server.calls
    requires id in s.server.db.rows && s.server.db.rows[id].token == s.client.store.value.refresh
    ensures
      var t := Step(s, ReadStore(f));
      && t.client.flights[f] == Posted(s.client.store.value.refresh)
      && Enabled(t, Arrive(f, next, Some(id)))
      && Step(t, Arrive(f, next, Some(id))).server ==
         s.server.(calls := s.server.calls[next := S.Found(id, s.server.db.rows[id])])
  {
  }

  // ------------------------------------------- a run in which the client wipes its own family

  ghost predicate Next(s: Sys, e: Event, t: Sys) { Enabled(s, e) && t == Step(s, e) }

  /** The names one account, its sign-in and one rotation take. */
  datatype Names = Names(user: S.UserId, id: S.RowId, token: S.RawToken, family: S.FamilyId,
                         childId: S.RowId, childToken: S.RawToken)

  ghost predicate AllDifferent(n: Names) {
    n.token != "" && Distinct([n.user, n.id, n.token, n.family, n.childId, n.childToken])
  }

  lemma TheyDiffer(n: Names)
    requires AllDifferent(n)
    ensures n.user !in {n.id, n.token, n.family, n.childId, n.childToken}
    ensures n.id !in {n.token, n.family, n.childId, n.childToken}
    ensures n.token !in {n.family, n.childId, n.childToken}
    ensures n.family !in {n.childId, n.childToken} && n.childId != n.childToken
  {
    var s := [n.user, n.id, n.token, n.family, n.childId, n.childToken];
    assert s[0] == n.user && s[1] == n.id && s[2] == n.token && s[3] == n.family && s[4] == n.childId && s[5] == n.childToken;
  }

  function FirstRow(n: Names): S.Row { S.NewRow(n.user, n.family, n.token, 0) }

  function UsedUp(n: Names): S.Row { FirstRow(n).(usedAt := Some(0), replacedBy := Some(n.childId)) }

  const START := Sys(S.State(S.Db(map[], map[], map[], map[]), 0, {}, map[]),
                     Client(None, None, map[], map[], 0), {}, map[], multiset{}, {})

  /** Signed in, with no refresh in flight. */
  function SignedIn(n: Names): Sys {
    Sys(S.State(S.Db(map[n.id := FirstRow(n)], map[n.user := 0], map[n.user := "secret"], map[]), 0,
                {n.user, n.id, n.token, n.family}, map[]),
        Client(Some(Tokens(n.user, 0, n.token)), None, map[], map[], 0), {n.token}, map[], multiset{}, {})
  }

  /** The first refresh has been rotated, its answer lost, and its flight ended. */
  function AnswerLost(n: Names): Sys {
    Sys(S.State(S.Db(map[n.id := UsedUp(n), n.childId := S.NewRow(n.user, n.family, n.childToken, 0)],
                     map[n.user := 0], map[n.user := "secret"], map[]), 0,
                {n.user, n.id, n.token, n.family, n.childId, n.childToken},
                map[0 := S.Returned(Some(S.Rotation(n.user, 0, n.childToken, S.REFRESH_TOKEN_TTL_MS)))]),
        Client(Some(Tokens(n.user, 0, n.token)), None, map[], map[0 := GaveUp], 0),
        {n.token, n.childToken}, map[0 := n.token], multiset{}, {0})
  }

  function SignInEvents(n: Names): seq<Event> {
    [Server(S.CreateAccount(n.user, "secret")), SignIn(n.user, 0, n.id, n.token, n.family)]
  }

  lemma SignInPath(n: Names) returns (ss: seq<Sys>)
    requires AllDifferent(n)
    ensures Path(Next, ss, SignInEvents(n)) && ss[0] == START && ss[2] == SignedIn(n)
  {
    TheyDiffer(n);
    var s1 := Step(START, SignInEvents(n)[0]);
    assert Step(s1, SignInEvents(n)[1]) == SignedIn(n);
    ss := [START, s1, SignedIn(n)];
  }

  /** A call meets a 401 and the stored token goes on the wire. */
  function RefreshEvents(k: nat, id: S.RowId): seq<Event> {
    [Ask(k), Answered401(k, k), ReadStore(k), Arrive(k, k, Some(id))]
  }

  /** The client of a refresh `k` whose flight is this. */
  function Flying(c: Client, k: nat, flight: Flight): Client {
    c.(refreshing := Some(k), flights := map[k := flight], fetches := c.fetches[k := Waiting(k)])
  }

  ghost function Refreshing(s: Sys, k: nat, id: S.RowId): Sys
    requires s.client.store.Some? && id in s.server.db.rows
  {
    var raw := s.client.store.value.refresh;
    s.(server := s.server.(calls := s.server.calls[k := S.Found(id, s.server.db.rows[id])]),
       client := Flying(s.client, k, AtServer(raw, k)),
       mine := s.mine[k := raw])
  }

  lemma RefreshPath(s: Sys, k: nat, id: S.RowId) returns (ss: seq<Sys>)
    requires s.client.store.Some? && s.client.store.value.refresh != ""
    requires s.client.refreshing == None && s.client.flights == map[]
    requires k !in s.client.fetches && k !in s.server.calls
    requires id in s.server.db.rows && s.server.db.rows[id].token == s.client.store.value.refresh
    ensures Path(Next, ss, RefreshEvents(k, id)) && ss[0] == s && ss[4] == Refreshing(s, k, id)
  {
    var s1 := s.(client := s.client.(fetches := s.client.fetches[k := Asked]));
    var s2 := s.(client := Flying(s.client, k, ReadingStore));
    var s3 := s.(client := Flying(s.client, k, Posted(s.client.store.value.refresh)));
    RefreshStarts(s, s1, s2, k);
    RefreshPosts(s, s2, s3, k);
    RefreshArrives(s, s3, k, id);
    ss := [s, s1, s2, s3, Refreshing(s, k, id)];
  }

  lemma RefreshStarts(s: Sys, s1: Sys, s2: Sys, k: nat)
    requires s.client.refreshing == None && s.client.flights == map[] && k !in s.client.fetches
    requires s1 == s.(client := s.client.(fetches := s.client.fetches[k := Asked]))
    requires s2 == s.(client := Flying(s.client, k, ReadingStore))
    ensures Next(s, Ask(k), s1) && Next(s1, Answered401(k, k), s2)
  {
    assert s1.client.fetches[k := Waiting(k)] == s2.client.fetches;
  }

  lemma RefreshPosts(s: Sys, s2: Sys, s3: Sys, k: nat)
    requires s.client.store.Some? && s.client.store.value.refresh != ""
    requires s2 == s.(client := Flying(s.client, k, ReadingStore))
    requires s3 == s.(client := Flying(s.client, k, Posted(s.client.store.value.refresh)))
    ensures Next(s2, ReadStore(k), s3)
  {
    assert s2.client.flights[k := Posted(s.client.store.value.refresh)] == s3.client.flights;
  }

  lemma RefreshArrives(s: Sys, s3: Sys, k: nat, id: S.RowId)
    requires s.client.store.Some? && k !in s.server.calls
    requires id in s.server.db.rows && s.server.db.rows[id].token == s.client.store.value.refresh
    requires s3 == s.(client := Flying(s.client, k, Posted(s.client.store.value.refresh)))
    ensures Next(s3, Arrive(k, k, Some(id)), Refreshing(s, k, id))
  {
    var raw := s.client.store.value.refresh;
    assert S.LooksUp(s.server.db.rows, raw, Some(id));
    assert s3.client.flights[k := AtServer(raw, k)] == map[k := AtServer(raw, k)];
  }

  function LossEvents(n: Names): seq<Event> {
    [Server(S.Decide(0)), Server(S.RunConsume(0, n.childId, n.childToken)), Lost(0), RunFinally(0)]
  }

  lemma RotatedPath(n: Names, s: Sys, t: Sys)
    requires AllDifferent(n) && s == Refreshing(SignedIn(n), 0, n.id)
    requires t == Sys(AnswerLost(n).server, s.client, AnswerLost(n).held, s.mine, multiset{}, {})
    ensures
      var m := s.(server := s.server.(calls := map[0 := S.Consume(n.id, FirstRow(n))]));
      Next(s, LossEvents(n)[0], m) && Next(m, LossEvents(n)[1], t)
  {
    TheyDiffer(n);
    var m := s.server.(calls := map[0 := S.Consume(n.id, FirstRow(n))]);
    var (db, result) := S.ConsumeTx(m.db, 0, n.id, FirstRow(n), n.childId, n.childToken);
    assert db == AnswerLost(n).server.db;
    assert S.Step(m, S.RunConsume(0, n.childId, n.childToken)) == AnswerLost(n).server;
  }

  lemma LossPath(n: Names) returns (ss: seq<Sys>)
    requires AllDifferent(n)
    ensures Path(Next, ss, LossEvents(n)) && ss[0] == Refreshing(SignedIn(n), 0, n.id) && ss[4] == AnswerLost(n)
    ensures 0 in ss[2].server.calls && ReturnedPair(ss[2].server.calls[0]) && GivesUp(ss[2], Lost(0), n.token, 0)
  {
    var s0, s4 := Refreshing(SignedIn(n), 0, n.id), AnswerLost(n);
    var s1 := s0.(server := s0.server.(calls := map[0 := S.Consume(n.id, FirstRow(n))]));
    var s2 := Sys(s4.server, s0.client, s4.held, s0.mine, multiset{}, {});
    var s3 := s2.(client := s0.client.(flights := map[0 := Settled(None)]), abandoned := {0});
    RotatedPath(n, s0, s2);
    LostPath(n, s2, s3);
    ss := [s0, s1, s2, s3, s4];
  }

  lemma LostPath(n: Names, s: Sys, t: Sys)
    requires s == Sys(AnswerLost(n).server, Refreshing(SignedIn(n), 0, n.id).client, AnswerLost(n).held,
                      map[0 := n.token], multiset{}, {})
    requires t == s.(client := s.client.(flights := map[0 := Settled(None)]), abandoned := {0})
    ensures Next(s, Lost(0), t) && Next(t, RunFinally(0), AnswerLost(n))
    ensures 0 in s.server.calls && ReturnedPair(s.server.calls[0]) && GivesUp(s, Lost(0), n.token, 0)
  {
    assert s.client.flights == map[0 := AtServer(n.token, 0)];
    assert t.client.flights - {0} == map[];
  }

  function WipeEvents(): seq<Event> { [Server(S.Decide(1)), Server(S.RunWipe(1))] }

  lemma WipePath(n: Names, s: Sys) returns (ss: seq<Sys>)
    requires AllDifferent(n) && s == Later(n)
    ensures Path(Next, ss, WipeEvents()) && ss[0] == Refreshing(s, 1, n.id)
    ensures OwnReplayStep(ss[1], WipeEvents()[1]) && ss[1].server.db.rows == AnswerLost(n).server.db.rows
    ensures ss[2].server.db.rows == map[] && ss[2].client.store == s.client.store
  {
    TheyDiffer(n);
    var s0 := Refreshing(s, 1, n.id);
    var s1 := Step(s0, Server(S.Decide(1)));
    assert s1.server.calls[1] == S.Wipe(n.family);
    ss := [s0, s1, Step(s1, Server(S.RunWipe(1)))];
  }

  lemma UpToLoss(n: Names) returns (ss: seq<Sys>, es: seq<Event>)
    requires AllDifferent(n)
    ensures Path(Next, ss, es) && |es| == 10 && ss[0] == START && ss[10] == AnswerLost(n)
    ensures es[8] == Lost(0) && GivesUp(ss[8], es[8], n.token, 0)
    ensures 0 in ss[8].server.calls && ReturnedPair(ss[8].server.calls[0])
  {
    var signIn := SignInPath(n);
    var first := RefreshPath(SignedIn(n), 0, n.id);
    ss, es := Join(Next, signIn, SignInEvents(n), first, RefreshEvents(0, n.id));
    var loss := LossPath(n);
    ss, es := Join(Next, ss, es, loss, LossEvents(n));
    assert es[8] == LossEvents(n)[2] && ss[8] == loss[2];
  }

  /** Just after the grace window. */
  function Later(n: Names): Sys {
    var lost := AnswerLost(n);
    lost.(server := lost.server.(now := S.REUSE_GRACE_MS + 1))
  }

  lemma UpToSecond(n: Names) returns (ss: seq<Sys>, es: seq<Event>)
    requires AllDifferent(n)
    ensures Path(Next, ss, es) && |es| == 15 && ss[0] == START && ss[15] == Refreshing(Later(n), 1, n.id)
    ensures es[8] == Lost(0) && GivesUp(ss[8], es[8], n.token, 0)
    ensures 0 in ss[8].server.calls && ReturnedPair(ss[8].server.calls[0])
  {
    TheyDiffer(n);
    var lost, later := AnswerLost(n), Later(n);
    var tick := [Server(S.Tick(S.REUSE_GRACE_MS + 1))];
    var second := RefreshPath(later, 1, n.id);
    assert Next(lost, tick[0], later);
    assert Path(Next, [lost, later], tick);
    second, tick := Join(Next, [lost, later], tick, second, RefreshEvents(1, n.id));
    ss, es := UpToLoss(n);
    ss, es := Join(Next, ss, es, second, tick);
  }

  lemma PathIsRun(ss: seq<Sys>, es: seq<Event>)
    requires Path(Next, ss, es) && ss[0] == START
    ensures Run(ss, es)
  {
    assert forall i :: 0 <= i < |es| ==> Next(ss[i], es[i], ss[i + 1]);
  }

  /**
   From empty tables, with one account, one client and nobody else: sign-in, a
   401, a rotation whose answer is lost, and one more 401 after the grace window
   end with the client's own call deleting its only family.
   */
  lemma ClientWipesItself(n: Names) returns (ss: seq<Sys>, es: seq<Event>)
    requires AllDifferent(n)
    ensures Run(ss, es) && |es| == 17
    ensures es[8] == Lost(0) && GivesUp(ss[8], es[8], n.token, 0)
    ensures 0 in ss[8].server.calls && ReturnedPair(ss[8].server.calls[0])
    ensures OwnReplayStep(ss[16], es[16]) && es[16].e.RunWipe?
    ensures ss[16].server.db.rows.Keys == {n.id, n.childId} && ss[17].server.db.rows == map[]
    ensures ss[17].client.store == Some(Tokens(n.user, 0, n.token))
  {
    var later := Later(n);
    ss, es := UpToSecond(n);
    var wipe := WipePath(n, later);
    ss, es := Join(Next, ss, es, wipe, WipeEvents());
    PathIsRun(ss, es);
    assert ss[16] == wipe[1] && es[16] == WipeEvents()[1] && ss[17] == wipe[2];
  }
}
