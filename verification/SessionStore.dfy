/**
 The session tables as the object the server calls: each method is one exported
 function run without interference, proved against the outcome its
 documentation describes, and that outcome against the interleaved steps.
 */
module SessionStore {
  import opened Prelude
  import opened Sessions
  import opened FamilyChains

  /** The documented outcome of one whole rotation: what it returns and what it leaves stored. */
  ghost predicate Rotated(db: Db, now: int, raw: RawToken, childId: RowId, childToken: RawToken,
                          after: Db, result: Option<Rotation>)
  {
    // unknown token
    && ((forall id :: id in db.rows ==> db.rows[id].token != raw) ==> after == db && result == None)
    && forall id :: id in db.rows && db.rows[id].token == raw ==>
      var row := db.rows[id];
      match row.usedAt
      case Some(t) =>
        && result == None
        // a replay past the grace window, or one whose child was used too, revokes the lineage
        && (if now - t > 60 * 1000 || ChildUsed(db, row)
            then after == db.(rows := after.rows) && OnlyFamilyDeleted(db.rows, after.rows, row.family)
            else after == db)
      case None =>
        if row.expiresAt < now then after == db && result == None
        else Consumed(db, now, id, childId, childToken, after, result)
  }

  /** The claimed row is used from now on, and its child is minted unless the account is gone. */
  ghost predicate Consumed(db: Db, now: int, id: RowId, childId: RowId, childToken: RawToken,
                           after: Db, result: Option<Rotation>)
    requires id in db.rows
  {
    var row := db.rows[id];
    && after == db.(rows := after.rows)
    && after.rows.Keys == db.rows.Keys + (if row.user in db.epochs then {childId} else {})
    && after.rows[id] == row.(usedAt := Some(now), replacedBy := if row.user in db.epochs then Some(childId) else row.replacedBy)
    && (forall x :: x in db.rows && x != id ==> after.rows[x] == db.rows[x])
    && (if row.user in db.epochs then
          && result == Some(Rotation(row.user, db.epochs[row.user], childToken, now + 30 * 24 * 60 * 60 * 1000))
          && after.rows[childId] == NewRow(row.user, row.family, childToken, now)
        else result == None)
  }

  predicate ChildUsed(db: Db, row: Row) {
    row.replacedBy.Some? && row.replacedBy.value in db.rows && db.rows[row.replacedBy.value].usedAt.Some?
  }

  ghost predicate OnlyFamilyDeleted(before: Rows, after: Rows, f: FamilyId) {
    && (forall id :: id in after ==> id in before && after[id] == before[id] && before[id].family != f)
    && (forall id :: id in before && before[id].family != f ==> id in after)
  }

  /** The documented outcome of a reset: the token, every session of the account and its epoch move together. */
  ghost predicate ResetDone(before: Db, user: UserId, password: string, token: RawToken, after: Db, ok: bool) {
    && (ok <==> (exists u :: u in before.resets && before.resets[u] == token) && user in before.epochs)
    && (!ok ==> after == before)
    && (ok ==>
          && after.passwords == before.passwords[user := password]
          && after.epochs == before.epochs[user := before.epochs[user] + 1]
          && (forall id :: id in after.rows <==> id in before.rows && before.rows[id].user != user)
          && (forall id :: id in after.rows ==> after.rows[id] == before.rows[id])
          && (forall u :: u in after.resets <==> u in before.resets && before.resets[u] != token)
          && (forall u :: u in after.resets ==> after.resets[u] == before.resets[u]))
  }

  ghost predicate TokensUnique(rows: Rows) {
    forall a, b :: a in rows && b in rows && rows[a].token == rows[b].token ==> a == b
  }

  const RESET_TTL_MS := 60 * 60 * 1000

  /** When a live reset token was issued and when it expires. */
  datatype Issued = Issued(createdAt: int, expiresAt: int)

  class Store {
    var rows: Rows
    var epochs: map<UserId, nat>
    var passwords: map<UserId, string>
    var resets: map<UserId, RawToken>
    var issuedAt: map<UserId, Issued>   // the times of each live reset token

    function Tables(): Db
      reads this
    {
      Db(rows, epochs, passwords, resets)
    }

    constructor ()
      ensures Tables() == Db(map[], map[], map[], map[]) && issuedAt == map[]
    {
      rows, epochs, passwords, resets, issuedAt := map[], map[], map[], map[], map[];
    }

    /** `findUnique` by token hash. */
    method FindUnique(raw: RawToken) returns (found: Option<RowId>)
      ensures LooksUp(rows, raw, found)
    {
      var todo := rows.Keys;
      while todo != {}
        invariant todo <= rows.Keys
        invariant forall id :: id in rows && id !in todo ==> rows[id].token != raw
      {
        var id :| id in todo;
        if rows[id].token == raw { return Some(id); }
        todo := todo - {id};
      }
      found := None;
    }

    method DeleteFamily(f: FamilyId)
      modifies this`rows
      ensures OnlyFamilyDeleted(old(rows), rows, f)
    {
      rows := WithoutFamily(rows, f);
    }

    /** A login passes no family and starts the fresh one; a rotation passes its parent's. */
    method IssueRefreshToken(user: UserId, familyId: Option<FamilyId>, now: int,
                             id: RowId, token: RawToken, freshFamily: FamilyId)
      requires id !in rows
      modifies this`rows
      ensures rows.Keys == old(rows).Keys + {id}
      ensures forall x :: x in old(rows) ==> rows[x] == old(rows)[x]
      ensures rows[id].user == user && rows[id].token == token && rows[id].usedAt == None && rows[id].replacedBy == None
      ensures rows[id].family == match familyId case Some(f) => f case None => freshFamily
      ensures rows[id].expiresAt - now == 30 * 24 * 60 * 60 * 1000
    {
      rows := rows[id := NewRow(user, match familyId case Some(f) => f case None => freshFamily, token, now)];
    }

    method RotateRefreshToken(raw: RawToken, now: int, childId: RowId, childToken: RawToken)
      returns (result: Option<Rotation>)
      requires TokensUnique(rows) && childId !in rows
      modifies this`rows
      ensures Rotated(old(Tables()), now, raw, childId, childToken, Tables(), result)
    {
      var found := FindUnique(raw);
      if found == None { return None; }
      var id := found.value;
      var existing := rows[id];

      if existing.usedAt.Some? {
        if now - existing.usedAt.value > REUSE_GRACE_MS {
          DeleteFamily(existing.family);
          return None;
        }
        var child := if existing.replacedBy.Some? && existing.replacedBy.value in rows
                     then Some(rows[existing.replacedBy.value]) else None;
        if child.Some? && child.value.usedAt.Some? {
          DeleteFamily(existing.family);
        }
        return None;
      }

      if existing.expiresAt < now { return None; }
      result := ConsumeAndMint(id, existing, now, childId, childToken);
    }

    /** The rotation transaction, on a row that is still unused. */
    method ConsumeAndMint(id: RowId, existing: Row, now: int, childId: RowId, childToken: RawToken)
      returns (result: Option<Rotation>)
      requires id in rows && rows[id] == existing && childId !in rows
      modifies this`rows
      ensures Consumed(old(Tables()), now, id, childId, childToken, Tables(), result)
    {
      rows := rows[id := existing.(usedAt := Some(now))];
      if existing.user !in epochs { return None; }
      IssueRefreshToken(existing.user, Some(existing.family), now, childId, childToken, "");
      rows := rows[id := rows[id].(replacedBy := Some(childId))];
      result := Some(Rotation(existing.user, epochs[existing.user], childToken, rows[childId].expiresAt));
    }

    /** Sign-out. */
    method RevokeRefreshToken(raw: RawToken)
      requires TokensUnique(rows)
      modifies this`rows
      ensures forall id :: id in old(rows) && old(rows)[id].token == raw ==>
                OnlyFamilyDeleted(old(rows), rows, old(rows)[id].family)
      ensures (forall id :: id in old(rows) ==> old(rows)[id].token != raw) ==> rows == old(rows)
    {
      var found := FindUnique(raw);
      if found.Some? { DeleteFamily(rows[found.value].family); }
    }

    method RevokeAllRefreshTokensForUser(user: UserId)
      modifies this`rows
      ensures forall id :: id in rows ==> id in old(rows) && rows[id] == old(rows)[id] && rows[id].user != user
      ensures forall id :: id in old(rows) && old(rows)[id].user != user ==> id in rows
    {
      rows := WithoutUser(rows, user);
    }

    method DeleteExpiredRefreshTokens(now: int) returns (count: nat)
      modifies this`rows
      ensures forall id :: id in rows ==> id in old(rows) && rows[id] == old(rows)[id] && now <= rows[id].expiresAt
      ensures forall id :: id in old(rows) && now <= old(rows)[id].expiresAt ==> id in rows
      ensures count == |old(rows)| - |rows|
    {
      var kept := WithoutExpired(rows, now);
      assert kept.Keys <= rows.Keys;
      assert rows.Keys == kept.Keys + (rows.Keys - kept.Keys);
      count := |rows.Keys - kept.Keys|;
      rows := kept;
    }

    /** One live token per account: issuing replaces the account's previous one and no other's. */
    method IssuePasswordResetToken(user: UserId, token: RawToken, now: int)
      modifies this`resets, this`issuedAt
      ensures user in resets && resets[user] == token
      ensures resets.Keys == old(resets).Keys + {user}
      ensures forall u :: u in old(resets) && u != user ==> resets[u] == old(resets)[u]
      // it lives for an hour, and a replacement counts from its own issuance
      ensures issuedAt == old(issuedAt)[user := Issued(now, now + 60 * 60 * 1000)]
    {
      resets := resets[user := token];
      issuedAt := issuedAt[user := Issued(now, now + RESET_TTL_MS)];
    }

    /** Everything or nothing: a token that is not live leaves all four tables alone. */
    method ApplyPasswordReset(user: UserId, password: string, token: RawToken) returns (ok: bool)
      modifies this
      ensures ResetDone(old(Tables()), user, password, token, Tables(), ok)
      ensures issuedAt == if ok then old(issuedAt) - (old(resets).Keys - resets.Keys) else old(issuedAt)
    {
      ok := token in resets.Values && user in epochs;
      if !ok { return; }
      var left := map v | v in resets && resets[v] != token :: resets[v];
      issuedAt := issuedAt - (resets.Keys - left.Keys);
      resets := left;
      passwords := passwords[user := password];
      RevokeAllRefreshTokensForUser(user);
      epochs := epochs[user := epochs[user] + 1];
    }
  }

  // -------------------------------------------- the steps, taken with nothing in between

  /** The next step of a rotation in progress. */
  ghost function NextStep(s: State, c: CallId, childId: RowId, childToken: RawToken): Event
    requires c in s.calls && !s.calls[c].Returned?
  {
    match s.calls[c]
    case Found(_, _) => Decide(c)
    case AskChild(_, _) => LookChild(c)
    case Consume(_, _) => RunConsume(c, childId, childToken)
    case Wipe(_) => RunWipe(c)
  }

  /** Run call `c` to its end while nobody else moves. */
  ghost function Finish(s: State, c: CallId, childId: RowId, childToken: RawToken, fuel: nat): State
    requires c in s.calls && Fresh(s, {childId, childToken}) && childId != childToken
    decreases fuel
  {
    if fuel == 0 || s.calls[c].Returned? then s
    else
      var t := Step(s, NextStep(s, c, childId, childToken));
      if t.calls[c].Returned? then t else Finish(t, c, childId, childToken, fuel - 1)
  }

  /** A rotation nobody interrupts ends within four steps with exactly the documented outcome. */
  lemma UninterruptedRotation(s: State, c: CallId, raw: RawToken, found: Option<RowId>,
                              childId: RowId, childToken: RawToken)
    requires Enabled(s, BeginRotate(c, raw, found)) && TokensUnique(s.db.rows)
    requires Fresh(s, {childId, childToken}) && childId != childToken && s.db.rows.Keys <= s.issued
    ensures
      var t := Finish(Step(s, BeginRotate(c, raw, found)), c, childId, childToken, 3);
      && t.calls[c].Returned?
      && Rotated(s.db, s.now, raw, childId, childToken, t.db, t.calls[c].result)
  {
    if found.Some? {
      var s1 := Step(s, BeginRotate(c, raw, found));
      SoloDecided(Step(s1, Decide(c)), c, raw, found.value, s.db.rows[found.value], childId, childToken);
    }
  }

  /** From the decision on. */
  lemma SoloDecided(s: State, c: CallId, raw: RawToken, id: RowId, row: Row, childId: RowId, childToken: RawToken)
    requires TokensUnique(s.db.rows) && id in s.db.rows && s.db.rows[id] == row && row.token == raw
    requires c in s.calls && s.calls[c] == AfterFound(id, row, s.now)
    requires Fresh(s, {childId, childToken}) && childId != childToken && s.db.rows.Keys <= s.issued
    ensures
      var t := Finish(s, c, childId, childToken, 2);
      && t.calls[c].Returned?
      && Rotated(s.db, s.now, raw, childId, childToken, t.db, t.calls[c].result)
  {
    match s.calls[c]
    case Wipe(f) => SoloWipe(s, c, childId, childToken, 2);
    case AskChild(f, child) =>
      var s3 := Step(s, LookChild(c));
      if s3.calls[c].Wipe? { SoloWipe(s3, c, childId, childToken, 1); }
    case Consume(_, _) => SoloConsume(s, c, childId, childToken);
    case Returned(_) =>
  }

  lemma SoloConsume(s: State, c: CallId, childId: RowId, childToken: RawToken)
    requires c in s.calls && Fresh(s, {childId, childToken}) && childId != childToken && s.db.rows.Keys <= s.issued
    requires s.calls[c].Consume? && s.calls[c].id in s.db.rows
    requires s.calls[c].row == s.db.rows[s.calls[c].id] && s.calls[c].row.usedAt == None
    ensures
      var t := Finish(s, c, childId, childToken, 2);
      && t.calls[c].Returned?
      && Consumed(s.db, s.now, s.calls[c].id, childId, childToken, t.db, t.calls[c].result)
  {
    assert childId !in s.db.rows;
    assert Step(s, RunConsume(c, childId, childToken)).calls[c].Returned?;
  }

  lemma SoloWipe(s: State, c: CallId, childId: RowId, childToken: RawToken, fuel: nat)
    requires c in s.calls && Fresh(s, {childId, childToken}) && childId != childToken && fuel > 0
    requires s.calls[c].Wipe?
    ensures
      var t := Finish(s, c, childId, childToken, fuel);
      && t.calls[c] == Returned(None)
      && t.db == s.db.(rows := t.db.rows)
      && OnlyFamilyDeleted(s.db.rows, t.db.rows, s.calls[c].family)
  {
  }

  /** The reset step has the same documented outcome. */
  lemma ResetStepIsDone(s: State, u: UserId, password: string, token: RawToken)
    ensures ResetDone(s.db, u, password, token, Step(s, ApplyReset(u, password, token)).db, ResetSucceeds(s.db, u, token))
  {
    if token in s.db.resets.Values {
      var v :| v in s.db.resets && s.db.resets[v] == token;
    }
  }

  /**
   The rotation transaction under interference: on a row that is used or gone by
   then it changes no table and returns nothing, so a lost race revokes nothing.
   */
  lemma ConsumeStepIsDone(s: State, c: CallId, childId: RowId, childToken: RawToken)
    requires Enabled(s, RunConsume(c, childId, childToken)) && s.db.rows.Keys <= s.issued
    requires s.calls[c].id in s.db.rows ==>
      LaterReading(s.db.rows[s.calls[c].id], s.calls[c].row)
    ensures
      var t := Step(s, RunConsume(c, childId, childToken));
      var id := s.calls[c].id;
      && t.calls[c].Returned?
      && if id in s.db.rows && s.db.rows[id].usedAt == None
         then Consumed(s.db, s.now, id, childId, childToken, t.db, t.calls[c].result)
         else t.db == s.db && t.calls[c].result == None
  {
    assert childId !in s.db.rows;
  }

  /** A login stores one unused row of a new family and changes nothing else. */
  lemma LoginStepIsDone(s: State, u: UserId, id: RowId, token: RawToken, f: FamilyId)
    requires Enabled(s, Login(u, id, token, f)) && s.db.rows.Keys <= s.issued
    ensures
      var t := Step(s, Login(u, id, token, f));
      && t.db == s.db.(rows := t.db.rows) && t.calls == s.calls && t.db.rows.Keys == s.db.rows.Keys + {id}
      && (forall x :: x in s.db.rows ==> t.db.rows[x] == s.db.rows[x])
      && t.db.rows[id] == Row(u, f, token, s.now + 30 * 24 * 60 * 60 * 1000, None, None)
  {
    assert id !in s.db.rows;
  }

  /** A sweep drops exactly the rows whose expiry is before its cutoff; a revocation exactly one user's rows. */
  lemma DeletionStepsAreDone(s: State, cutoff: int, u: UserId)
    requires cutoff <= s.now
    ensures
      var t := Step(s, Sweep(cutoff));
      && t.db == s.db.(rows := t.db.rows) && t.calls == s.calls
      && (forall id :: id in t.db.rows <==> id in s.db.rows && cutoff <= s.db.rows[id].expiresAt)
      && (forall id :: id in t.db.rows ==> t.db.rows[id] == s.db.rows[id])
    ensures
      var t := Step(s, RevokeAll(u));
      && t.db == s.db.(rows := t.db.rows) && t.calls == s.calls
      && (forall id :: id in t.db.rows <==> id in s.db.rows && s.db.rows[id].user != u)
      && (forall id :: id in t.db.rows ==> t.db.rows[id] == s.db.rows[id])
  {
  }

  /** Issuing a reset token gives the account this one live token and changes nothing else. */
  lemma IssueStepIsDone(s: State, u: UserId, token: RawToken)
    requires Enabled(s, IssueReset(u, token))
    ensures Step(s, IssueReset(u, token)).db == s.db.(resets := s.db.resets[u := token])
    ensures ResetSucceeds(Step(s, IssueReset(u, token)).db, u, token)
  {
    var resets := s.db.resets[u := token];
    assert u in resets && resets[u] == token;
  }

  /** A first verification drops the planted password, ends its sessions and moves the epoch on, for one account. */
  lemma VerifyStepIsDone(s: State, u: UserId)
    requires Enabled(s, VerifyFirst(u))
    ensures
      var t := Step(s, VerifyFirst(u));
      && t.db.passwords == s.db.passwords - {u}
      && t.db.epochs == s.db.epochs[u := s.db.epochs[u] + 1] && t.db.resets == s.db.resets && t.calls == s.calls
      && (forall id :: id in t.db.rows <==> id in s.db.rows && s.db.rows[id].user != u)
      && (forall id :: id in t.db.rows ==> t.db.rows[id] == s.db.rows[id])
  {
  }

  /** The end of a sign-out, with nothing in between: the wipe if there is one to run. */
  ghost function EndLogout(s: State, c: CallId): State
    requires c in s.calls && (s.calls[c].Wipe? || s.calls[c].Returned?)
  {
    if s.calls[c].Wipe? then Step(s, RunWipe(c)) else s
  }

  /** A sign-out nobody interrupts deletes exactly the presented token's family, or nothing for an unknown token. */
  lemma UninterruptedLogout(s: State, c: CallId, raw: RawToken, found: Option<RowId>)
    requires Enabled(s, BeginLogout(c, raw, found))
    ensures
      var t := EndLogout(Step(s, BeginLogout(c, raw, found)), c);
      && t.calls[c] == Returned(None) && t.db == s.db.(rows := t.db.rows)
      && match found
         case Some(id) => OnlyFamilyDeleted(s.db.rows, t.db.rows, s.db.rows[id].family)
         case None => t.db == s.db && forall id :: id in s.db.rows ==> s.db.rows[id].token != raw
  {
    if found.Some? {
      assert Step(s, BeginLogout(c, raw, found)).calls[c] == Wipe(s.db.rows[found.value].family);
    }
  }
}
