/**
 The server over whole runs: every step keeps the invariant, and nothing that is
 gone, used, burned or overtaken ever comes back, whatever the interleaving.
 */
module SessionHistory {
  import opened Prelude
  import opened Sessions
  import opened FamilyChains

  predicate FamilyDead(s: State, f: FamilyId) {
    f in s.issued && forall id :: id in s.db.rows ==> s.db.rows[id].family != f
  }

  predicate RowGone(s: State, id: RowId) { id in s.issued && id !in s.db.rows }

  /** The row was consumed, whether or not it is still stored. */
  predicate Spent(s: State, id: RowId) {
    id in s.issued && (id in s.db.rows ==> s.db.rows[id].usedAt.Some?)
  }

  predicate ResetBurned(s: State, token: RawToken) {
    token in s.issued && token !in s.db.resets.Values
  }

  /** How the tables may move: names are never reused, rows only go from unused to used to gone. */
  ghost predicate Evolves(s: State, t: State) {
    && s.issued <= t.issued && s.now <= t.now
    && (forall id :: id in s.issued && id in t.db.rows ==>
          id in s.db.rows && LaterReading(t.db.rows[id], s.db.rows[id]))
    && (forall f :: FamilyDead(s, f) ==> FamilyDead(t, f))
    && (forall u :: u in s.issued && u in t.db.epochs ==>
          u in s.db.epochs && s.db.epochs[u] <= t.db.epochs[u])
    && (forall token :: ResetBurned(s, token) ==> ResetBurned(t, token))
  }

  lemma EvolvesTwice(s: State, t: State, u: State)
    requires Evolves(s, t) && Evolves(t, u)
    ensures Evolves(s, u)
  {
  }

  // ------------------------------------------------------------- one step

  /** Every step but a login and a rotation transaction only deletes rows. */
  lemma OthersOnlyDelete(s: State, e: Event, id: RowId)
    requires Enabled(s, e) && !e.Login? && !e.RunConsume? && id in Step(s, e).db.rows
    ensures id in s.db.rows && Step(s, e).db.rows[id] == s.db.rows[id]
  {
  }

  lemma RowEvolves(s: State, e: Event, id: RowId)
    requires Inv(s) && Enabled(s, e) && id in s.issued && id in Step(s, e).db.rows
    ensures id in s.db.rows && LaterReading(Step(s, e).db.rows[id], s.db.rows[id])
  {
    if e.RunConsume? { ConsumeEvolves(s, e, id); }
    else if !e.Login? { OthersOnlyDelete(s, e, id); }
  }

  lemma ConsumeEvolves(s: State, e: Event, id: RowId)
    requires Enabled(s, e) && e.RunConsume? && id in s.issued && id in Step(s, e).db.rows
    ensures id in s.db.rows && LaterReading(Step(s, e).db.rows[id], s.db.rows[id])
  {
  }

  /** A row becomes used only in the transaction that consumes it. */
  lemma OnlyConsumeUses(s: State, e: Event, id: RowId)
    requires Inv(s) && Enabled(s, e) && id in s.db.rows && id in Step(s, e).db.rows
    ensures (e.RunConsume? && s.calls[e.call].id == id) || Step(s, e).db.rows[id].usedAt == s.db.rows[id].usedAt
  {
    match e
    case Login(_, _, _, _) =>
    case RunConsume(_, _, _) =>
    case _ => OthersOnlyDelete(s, e, id);
  }

  lemma RowsEvolve(s: State, e: Event)
    requires Inv(s) && Enabled(s, e)
    ensures
      var t := Step(s, e);
      forall id :: id in s.issued && id in t.db.rows ==> id in s.db.rows && LaterReading(t.db.rows[id], s.db.rows[id])
  {
    var t := Step(s, e);
    forall id | id in s.issued && id in t.db.rows
      ensures id in s.db.rows && LaterReading(t.db.rows[id], s.db.rows[id])
    {
      RowEvolves(s, e, id);
    }
  }

  lemma FamiliesStayDead(s: State, e: Event, f: FamilyId)
    requires Inv(s) && Enabled(s, e) && FamilyDead(s, f)
    ensures FamilyDead(Step(s, e), f)
  {
    if e.RunConsume? { assert PcInv(s, s.calls[e.call]); }
  }

  lemma BurnedStaysBurned(s: State, e: Event, token: RawToken)
    requires Inv(s) && Enabled(s, e) && ResetBurned(s, token)
    ensures ResetBurned(Step(s, e), token)
  {
    var t := Step(s, e);
    assert forall u :: u in s.db.resets ==> s.db.resets[u] in s.db.resets.Values;
    if token in t.db.resets.Values {
      var u :| u in t.db.resets && t.db.resets[u] == token;
    }
  }

  lemma StepEvolves(s: State, e: Event)
    requires Inv(s) && Enabled(s, e)
    ensures Evolves(s, Step(s, e))
  {
    RowsEvolve(s, e);
    forall f | FamilyDead(s, f) ensures FamilyDead(Step(s, e), f) { FamiliesStayDead(s, e, f); }
    forall token | ResetBurned(s, token) ensures ResetBurned(Step(s, e), token) { BurnedStaysBurned(s, e, token); }
  }

  /** What the table invariant asks of one row after a step, and that a new row's token is new. */
  ghost predicate RowKept(s: State, t: State, id: RowId)
    requires id in t.db.rows
  {
    && id in t.issued && t.db.rows[id].token in t.issued && t.db.rows[id].family in t.issued
    && t.db.rows[id].user in t.db.epochs
    && t.db.rows[id].expiresAt <= t.now + REFRESH_TOKEN_TTL_MS
    && (t.db.rows[id].usedAt.Some? ==> t.db.rows[id].replacedBy.Some?)
    && (if id in s.db.rows then t.db.rows[id].token == s.db.rows[id].token else t.db.rows[id].token !in s.issued)
  }

  lemma ConsumeKeepsRow(s: State, e: Event, id: RowId)
    requires Inv(s) && Enabled(s, e) && e.RunConsume? && id in Step(s, e).db.rows
    ensures RowKept(s, Step(s, e), id)
  {
    assert PcInv(s, s.calls[e.call]);
  }

  /** Accounts go only together with their rows. */
  lemma OwnersStay(s: State, e: Event, id: RowId)
    requires Inv(s) && Enabled(s, e) && !e.Login? && !e.RunConsume? && id in Step(s, e).db.rows
    ensures Step(s, e).db.rows[id].user in Step(s, e).db.epochs
  {
    OthersOnlyDelete(s, e, id);
  }

  /** A stored row after a step was stored before, or was minted from a fresh id and token. */
  lemma StepKeepsRow(s: State, e: Event, id: RowId)
    requires Inv(s) && Enabled(s, e) && id in Step(s, e).db.rows
    ensures RowKept(s, Step(s, e), id)
  {
    if e.RunConsume? {
      ConsumeKeepsRow(s, e, id);
    } else if !e.Login? {
      OthersOnlyDelete(s, e, id);
      OwnersStay(s, e, id);
      assert s.issued <= Step(s, e).issued && s.now <= Step(s, e).now;
    }
  }

  /** One step stores at most one new row. */
  lemma OneNewRow(s: State, e: Event, a: RowId, b: RowId)
    requires Enabled(s, e) && a in Step(s, e).db.rows && b in Step(s, e).db.rows
    requires a !in s.db.rows && b !in s.db.rows
    ensures a == b
  {
    if !e.Login? && !e.RunConsume? { OthersOnlyDelete(s, e, a); }
  }

  lemma StepKeepsTable(s: State, e: Event)
    requires Inv(s) && Enabled(s, e)
    ensures TableInv(Step(s, e))
  {
    var t := Step(s, e);
    forall id | id in t.db.rows
      ensures id in t.issued && t.db.rows[id].token in t.issued && t.db.rows[id].family in t.issued
      ensures t.db.rows[id].user in t.db.epochs && t.db.rows[id].expiresAt <= t.now + REFRESH_TOKEN_TTL_MS
      ensures t.db.rows[id].usedAt.Some? ==> t.db.rows[id].replacedBy.Some?
    {
      StepKeepsRow(s, e, id);
    }
    forall a, b | a in t.db.rows && b in t.db.rows && t.db.rows[a].token == t.db.rows[b].token ensures a == b {
      StepKeepsRow(s, e, a);
      StepKeepsRow(s, e, b);
      if a !in s.db.rows && b !in s.db.rows { OneNewRow(s, e, a, b); }
    }
  }

  lemma SnapshotStays(s: State, e: Event, id: RowId, row: Row)
    requires Inv(s) && Enabled(s, e) && SnapshotInv(s, id, row)
    ensures SnapshotInv(Step(s, e), id, row)
  {
    if id in Step(s, e).db.rows { RowEvolves(s, e, id); }
  }

  lemma StepKeepsCalls(s: State, e: Event)
    requires Inv(s) && Enabled(s, e)
    ensures CallsInv(Step(s, e))
  {
    var t := Step(s, e);
    forall c | c in t.calls ensures PcInv(t, t.calls[c]) {
      if c in s.calls {
        assert PcInv(s, s.calls[c]);
        if s.calls[c].Found? || s.calls[c].Consume? { SnapshotStays(s, e, s.calls[c].id, s.calls[c].row); }
      }
    }
  }

  /** A rotation transaction extends its family's chain, or leaves every family alone. */
  lemma ConsumeKeepsChain(s: State, e: Event, f: FamilyId)
    requires Inv(s) && Enabled(s, e) && e.RunConsume?
    ensures HasChain(Step(s, e).db.rows, f)
  {
    var rows, rows' := s.db.rows, Step(s, e).db.rows;
    var pc := s.calls[e.call];
    assert PcInv(s, pc) && HasChain(rows, f);
    if !Claims(s.db, pc.id) || f != pc.row.family {
      ChainUntouched(rows, rows', f);
    } else {
      var chain :| IsChain(rows, f, chain);
      ChainAfterMint(rows, pc.id, s.now, e.childId, rows'[e.childId], chain);
    }
  }

  lemma StepKeepsChain(s: State, e: Event, f: FamilyId)
    requires Inv(s) && Enabled(s, e)
    ensures HasChain(Step(s, e).db.rows, f)
  {
    var rows, rows' := s.db.rows, Step(s, e).db.rows;
    assert HasChain(rows, f);
    match e
    case Login(u, id, token, g) =>
      if f == g { ChainAfterLogin(rows, id, NewRow(u, g, token, s.now)); } else { ChainUntouched(rows, rows', f); }
    case RunConsume(_, _, _) => ConsumeKeepsChain(s, e, f);
    case RunWipe(c) =>
      if f == s.calls[c].family { ChainEmpty(rows', f); } else { ChainUntouched(rows, rows', f); }
    case RevokeAll(u) => ChainWithoutUser(rows, f, u);
    case DeleteAccount(u) => ChainWithoutUser(rows, f, u);
    case ApplyReset(u, p, token) => ChainWithoutUser(rows, f, u);
    case VerifyFirst(u) => ChainWithoutUser(rows, f, u);
    case Sweep(cutoff) =>
      var chain :| IsChain(rows, f, chain);
      ChainAfterSweep(rows, f, chain, cutoff);
    case _ =>
  }

  lemma StepKeepsInv(s: State, e: Event)
    requires Inv(s) && Enabled(s, e)
    ensures Inv(Step(s, e))
  {
    StepKeepsTable(s, e);
    StepKeepsCalls(s, e);
    forall f ensures HasChain(Step(s, e).db.rows, f) { StepKeepsChain(s, e, f); }
  }

  // ------------------------------------------------------------ whole runs

  lemma {:induction false} RunKeepsInv(ss: seq<State>, es: seq<Event>, n: nat)
    requires Run(ss, es) && n < |ss|
    ensures Inv(ss[n])
  {
    if n == 0 {
      forall f ensures HasChain(ss[0].db.rows, f) { ChainEmpty(ss[0].db.rows, f); }
    } else {
      RunKeepsInv(ss, es, n - 1);
      StepKeepsInv(ss[n - 1], es[n - 1]);
    }
  }

  lemma {:induction false} RunEvolves(ss: seq<State>, es: seq<Event>, m: nat, n: nat)
    requires Run(ss, es) && m <= n < |ss|
    ensures Evolves(ss[m], ss[n])
    decreases n - m
  {
    if m == n {
    } else {
      RunEvolves(ss, es, m, n - 1);
      RunKeepsInv(ss, es, n - 1);
      StepEvolves(ss[n - 1], es[n - 1]);
      EvolvesTwice(ss[m], ss[n - 1], ss[n]);
    }
  }

  // ---------------------------------------------------------- main results

  /** A row a rotation could still claim. */
  predicate Usable(s: State, id: RowId) {
    id in s.db.rows && s.db.rows[id].usedAt == None
  }

  /**
   In every reachable state a family is one chain, and a family that has rows
   has exactly one usable one, the newest.
   */
  lemma FamilyIsOneChain(ss: seq<State>, es: seq<Event>, n: nat, f: FamilyId)
    requires Run(ss, es) && n < |ss|
    ensures exists chain ::
      && IsChain(ss[n].db.rows, f, chain)
      && forall id :: Usable(ss[n], id) && ss[n].db.rows[id].family == f <==> chain != [] && id == chain[|chain| - 1]
  {
    RunKeepsInv(ss, es, n);
    assert HasChain(ss[n].db.rows, f);
    var rows := ss[n].db.rows;
    var chain :| IsChain(rows, f, chain);
    if chain != [] { assert chain[|chain| - 1] in chain; }
    forall id | Usable(ss[n], id) && rows[id].family == f ensures chain != [] && id == chain[|chain| - 1] {
      UnusedIsNewest(rows, id, chain);
    }
  }

  /** Step `i` of the run is a rotation transaction that mints a child for row `id`. */
  ghost predicate MintsAt(ss: seq<State>, es: seq<Event>, i: nat, id: RowId)
    requires Run(ss, es)
  {
    && i < |es| && es[i].RunConsume?
    && ss[i].calls[es[i].call].id == id
    && Mints(ss[i].db, id, ss[i].calls[es[i].call].row)
  }

  /** Concurrent rotations of one token mint at most one child between them. */
  lemma AtMostOneChild(ss: seq<State>, es: seq<Event>, i: nat, j: nat, id: RowId)
    requires Run(ss, es) && MintsAt(ss, es, i, id) && MintsAt(ss, es, j, id)
    ensures i == j
  {
    if i != j {
      var a, b := if i < j then i else j, if i < j then j else i;
      RunKeepsInv(ss, es, a);
      assert PcInv(ss[a], ss[a].calls[es[a].call]);
      assert Spent(ss[a + 1], id);
      RunEvolves(ss, es, a + 1, b);
      assert false;
    }
  }

  /** A family without rows never has a row again, and no pending call can mint one for it. */
  lemma DeletedFamilyStaysDeleted(ss: seq<State>, es: seq<Event>, m: nat, n: nat, f: FamilyId)
    requires Run(ss, es) && m <= n < |ss| && FamilyDead(ss[m], f)
    ensures FamilyDead(ss[n], f)
    ensures forall c :: c in ss[n].calls && ss[n].calls[c].Consume? && ss[n].calls[c].row.family == f
                  ==> !Claims(ss[n].db, ss[n].calls[c].id)
  {
    RunEvolves(ss, es, m, n);
    RunKeepsInv(ss, es, n);
    forall c | c in ss[n].calls && ss[n].calls[c].Consume? && ss[n].calls[c].row.family == f
      ensures !Claims(ss[n].db, ss[n].calls[c].id)
    {
      assert PcInv(ss[n], ss[n].calls[c]);
    }
  }

  /**
   A replay decided more than the grace window after the token's use ends, at
   the latest when its wipe step runs, every token of the lineage for good.
   */
  lemma LateReplayKillsFamily(ss: seq<State>, es: seq<Event>, d: nat, w: nat, n: nat, c: CallId)
    requires Run(ss, es) && d < w < n < |ss|
    requires es[d] == Decide(c) && ss[d].calls[c].row.usedAt.Some?
    requires ss[d].now - ss[d].calls[c].row.usedAt.value > 60 * 1000
    requires forall i :: d < i < w ==> !ActsFor(es[i], c)
    requires es[w] == RunWipe(c)
    ensures FamilyDead(ss[n], ss[d].calls[c].row.family)
  {
    var f := ss[d].calls[c].row.family;
    assert ss[d + 1].calls[c] == Wipe(f);
    CallWaits(ss, es, d + 1, w, c);
    RunKeepsInv(ss, es, w);
    assert PcInv(ss[w], ss[w].calls[c]);
    assert FamilyDead(ss[w + 1], f);
    DeletedFamilyStaysDeleted(ss, es, w + 1, n, f);
  }

  /** The step moves call `c` on. */
  predicate ActsFor(e: Event, c: CallId) {
    match e
    case Decide(x) => x == c
    case LookChild(x) => x == c
    case RunConsume(x, _, _) => x == c
    case AbortConsume(x) => x == c
    case RunWipe(x) => x == c
    case BeginRotate(x, _, _) => x == c
    case BeginLogout(x, _, _) => x == c
    case _ => false
  }

  lemma {:induction false} CallWaits(ss: seq<State>, es: seq<Event>, m: nat, n: nat, c: CallId)
    requires Run(ss, es) && m <= n < |ss| && c in ss[m].calls
    requires forall i :: m <= i < n ==> !ActsFor(es[i], c)
    ensures c in ss[n].calls && ss[n].calls[c] == ss[m].calls[c]
    decreases n - m
  {
    if m == n {
    } else {
      CallWaits(ss, es, m, n - 1, c);
      assert Enabled(ss[n - 1], es[n - 1]);
    }
  }

  /**
   A replay decided within the grace window leaves the tables as they were and
   returns nothing, unless the child it asks for is used by then: only a fork
   makes it go on to delete the family.
   */
  lemma EarlyReplayChangesNothing(ss: seq<State>, es: seq<Event>, d: nat, w: nat, c: CallId)
    requires Run(ss, es) && d < w < |es|
    requires es[d] == Decide(c) && ss[d].calls[c].row.usedAt.Some?
    requires ss[d].now - ss[d].calls[c].row.usedAt.value <= 60 * 1000
    requires forall i :: d < i < w ==> !ActsFor(es[i], c)
    requires es[w] == LookChild(c)
    ensures ss[d + 1].db == ss[d].db && ss[w + 1].db == ss[w].db
    ensures ss[d].calls[c].row.replacedBy == Some(ss[w].calls[c].child)
    ensures Usable(ss[w], ss[w].calls[c].child) || RowGone(ss[w], ss[w].calls[c].child)
            ==> ss[w + 1].calls[c] == Returned(None)
    ensures ss[w + 1].calls[c].Wipe? ==> Spent(ss[w], ss[w].calls[c].child)
  {
    CallWaits(ss, es, d + 1, w, c);
    RunKeepsInv(ss, es, w);
  }

  /** Under the account foreign key, a rotation that claims its row always mints the child. */
  lemma EveryClaimMints(ss: seq<State>, es: seq<Event>, n: nat, c: CallId)
    requires Run(ss, es) && n < |ss| && c in ss[n].calls && ss[n].calls[c].Consume?
    requires Claims(ss[n].db, ss[n].calls[c].id)
    ensures Mints(ss[n].db, ss[n].calls[c].id, ss[n].calls[c].row)
  {
    RunKeepsInv(ss, es, n);
    assert PcInv(ss[n], ss[n].calls[c]);
  }

  /** After the account's sessions are ended at step `i`, no row stored for it up to then can rotate. */
  lemma ResetEndsEveryEarlierRow(ss: seq<State>, es: seq<Event>, k: nat, i: nat, n: nat, id: RowId)
    requires Run(ss, es) && k <= i < n < |ss|
    requires id in ss[k].db.rows && EndsSessions(ss[i].db, es[i], ss[k].db.rows[id].user)
    ensures id !in ss[n].db.rows && !Claims(ss[n].db, id)
  {
    RunKeepsInv(ss, es, k);
    RunEvolves(ss, es, k, i);
    RunKeepsInv(ss, es, i);
    assert RowGone(ss[i + 1], id);
    RunEvolves(ss, es, i + 1, n);
  }

  lemma ResetBurnsToken(s: State, e: Event)
    requires Inv(s) && Enabled(s, e) && e.ApplyReset? && ResetSucceeds(s.db, e.user, e.token)
    ensures ResetBurned(Step(s, e), e.token)
  {
  }

  /** A reset token succeeds at most once, whoever presents it and however often. */
  lemma ResetTokenSucceedsOnce(ss: seq<State>, es: seq<Event>, i: nat, j: nat)
    requires Run(ss, es) && i < |es| && j < |es| && es[i].ApplyReset? && es[j].ApplyReset?
    requires es[i].token == es[j].token
    requires ResetSucceeds(ss[i].db, es[i].user, es[i].token) && ResetSucceeds(ss[j].db, es[j].user, es[j].token)
    ensures i == j
  {
    if i != j {
      var a, b := if i < j then i else j, if i < j then j else i;
      RunKeepsInv(ss, es, a);
      ResetBurnsToken(ss[a], es[a]);
      assert ss[a + 1] == Step(ss[a], es[a]);
      assert ResetBurned(ss[b], es[a].token) by { RunEvolves(ss, es, a + 1, b); }
      assert false;
    }
  }

  /** The epoch a rotation returns is the account's at the moment of the claim. */
  lemma MintedEpochIsTheAccounts(s: State, e: Event, r: Rotation)
    requires Inv(s) && Enabled(s, e) && e.RunConsume?
    requires Step(s, e).calls[e.call] == Returned(Some(r))
    ensures r.user in s.issued && r.user in s.db.epochs && s.db.epochs[r.user] == r.epoch
  {
  }

  lemma ResetAdvancesEpoch(s: State, e: Event, u: UserId)
    requires Enabled(s, e) && EndsSessions(s.db, e, u)
    ensures u in s.db.epochs && Step(s, e).db.epochs == s.db.epochs[u := s.db.epochs[u] + 1]
  {
  }

  /** A rotation's epoch is behind the account's from the next reset or first verification on. */
  lemma ResetOvertakesEarlierEpochs(ss: seq<State>, es: seq<Event>, k: nat, i: nat, n: nat)
    requires Run(ss, es) && k < i < n < |ss|
    requires es[k].RunConsume? && ss[k + 1].calls[es[k].call].result.Some?
    requires EndsSessions(ss[i].db, es[i], ss[k + 1].calls[es[k].call].result.value.user)
    ensures
      var r := ss[k + 1].calls[es[k].call].result.value;
      r.user in ss[n].db.epochs ==> r.epoch < ss[n].db.epochs[r.user]
  {
    var r := ss[k + 1].calls[es[k].call].result.value;
    RunKeepsInv(ss, es, k);
    assert Enabled(ss[k], es[k]) && Enabled(ss[i], es[i]);
    MintedEpochIsTheAccounts(ss[k], es[k], r);
    assert r.user in ss[i].issued && r.epoch <= ss[i].db.epochs[r.user] by { RunEvolves(ss, es, k, i); }
    ResetAdvancesEpoch(ss[i], es[i], r.user);
    RunEvolves(ss, es, i + 1, n);
  }
}
