/**
 The session tables and every atomic step the server takes on them.

 A database statement or a transaction is one step; between two steps of one
 call, steps of any other call, sweeps, resets and clock ticks may happen.
 A call in progress is a `Pc`: what it has read so far and what it does next.
 Token hashing is injective, so a row stores the raw token it was issued for;
 ids, tokens and family names are drawn fresh from one pool, `issued`.
 */
module Sessions {
  import opened Prelude

  type UserId = string
  type FamilyId = string
  type RowId = string
  type RawToken = string
  type CallId = nat

  const REFRESH_TOKEN_TTL_MS := 30 * 24 * 60 * 60 * 1000
  const REUSE_GRACE_MS := 60 * 1000

  datatype Row = Row(user: UserId, family: FamilyId, token: RawToken, expiresAt: int,
                     usedAt: Option<int>, replacedBy: Option<RowId>)

  type Rows = map<RowId, Row>

  /** What a successful rotation hands back: the access token is stamped with `epoch`. */
  datatype Rotation = Rotation(user: UserId, epoch: nat, token: RawToken, expiresAt: int)

  datatype Db = Db(
    rows: Rows,
    epochs: map<UserId, nat>,           // one entry per account
    passwords: map<UserId, string>,
    resets: map<UserId, RawToken>)      // at most one live reset token per account

  /** Where a rotation or a sign-out stands between two database steps. */
  datatype Pc =
    | Found(id: RowId, row: Row)        // rotation: the row as it was read
    | AskChild(family: FamilyId, child: RowId)
    | Consume(id: RowId, row: Row)      // rotation: about to run the transaction
    | Wipe(family: FamilyId)            // about to delete the whole family
    | Returned(result: Option<Rotation>)

  datatype State = State(db: Db, now: int, issued: set<string>, calls: map<CallId, Pc>)

  datatype Event =
    | Tick(to: int)
    | CreateAccount(user: UserId, password: string)
    | DeleteAccount(user: UserId)
    | Login(user: UserId, id: RowId, token: RawToken, family: FamilyId)
    | BeginRotate(call: CallId, raw: RawToken, found: Option<RowId>)
    | Decide(call: CallId)
    | LookChild(call: CallId)
    | RunConsume(call: CallId, childId: RowId, childToken: RawToken)
    | AbortConsume(call: CallId)        // the transaction rolled back
    | RunWipe(call: CallId)
    | BeginLogout(call: CallId, raw: RawToken, found: Option<RowId>)
    | RevokeAll(user: UserId)
    | Sweep(cutoff: int)
    | VerifyFirst(user: UserId)         // first verification drops a planted password
    | IssueReset(user: UserId, token: RawToken)
    | ApplyReset(user: UserId, password: string, token: RawToken)

  // ---------------------------------------------------------------- statements

  /** The rows a delete statement leaves behind. */
  function WithoutFamily(rows: Rows, f: FamilyId): Rows {
    map id | id in rows && rows[id].family != f :: rows[id]
  }

  function WithoutUser(rows: Rows, u: UserId): Rows {
    map id | id in rows && rows[id].user != u :: rows[id]
  }

  function WithoutExpired(rows: Rows, cutoff: int): Rows {
    map id | id in rows && !(rows[id].expiresAt < cutoff) :: rows[id]
  }

  function NewRow(u: UserId, f: FamilyId, token: RawToken, now: int): Row {
    Row(u, f, token, now + REFRESH_TOKEN_TTL_MS, None, None)
  }

  ghost predicate LooksUp(rows: Rows, raw: RawToken, found: Option<RowId>) {
    match found
    case Some(id) => id in rows && rows[id].token == raw
    case None => forall id :: id in rows ==> rows[id].token != raw
  }

  /** The rotation transaction would flip `usedAt` on exactly one row. */
  predicate Claims(db: Db, id: RowId) {
    id in db.rows && db.rows[id].usedAt == None
  }

  /** The rotation transaction would also mint a child. */
  predicate Mints(db: Db, id: RowId, row: Row) {
    Claims(db, id) && row.user in db.epochs
  }

  /** The whole rotation transaction: consume the parent, mint the child, link them. */
  function ConsumeTx(db: Db, now: int, id: RowId, row: Row, childId: RowId, childToken: RawToken): (Db, Option<Rotation>) {
    if !Claims(db, id) then (db, None)
    else
      var used := db.rows[id].(usedAt := Some(now));
      if row.user !in db.epochs then (db.(rows := db.rows[id := used]), None)
      else
        var child := NewRow(row.user, row.family, childToken, now);
        (db.(rows := db.rows[id := used.(replacedBy := Some(childId))][childId := child]),
         Some(Rotation(row.user, db.epochs[row.user], childToken, child.expiresAt)))
  }

  /** What a rotation does next, from the row it read and the time it reads. */
  function AfterFound(id: RowId, row: Row, now: int): Pc {
    match row.usedAt
    case Some(t) =>
      if now - t > REUSE_GRACE_MS then Wipe(row.family)
      else if row.replacedBy.Some? then AskChild(row.family, row.replacedBy.value)
      else Returned(None)
    case None =>
      if row.expiresAt < now then Returned(None) else Consume(id, row)
  }

  function AfterChild(rows: Rows, family: FamilyId, child: RowId): Pc {
    if child in rows && rows[child].usedAt.Some? then Wipe(family) else Returned(None)
  }

  predicate ResetSucceeds(db: Db, u: UserId, token: RawToken) {
    token in db.resets.Values && u in db.epochs
  }

  /** The reset transaction: token first, then password, rows and epoch; all or nothing. */
  function ResetTx(db: Db, u: UserId, password: string, token: RawToken): Db {
    if !ResetSucceeds(db, u, token) then db
    else Db(WithoutUser(db.rows, u),
            db.epochs[u := db.epochs[u] + 1],
            db.passwords[u := password],
            map v | v in db.resets && db.resets[v] != token :: db.resets[v])
  }

  /** First-time verification of an account that has a password: credential, rows and epoch move together. */
  function VerifyTx(db: Db, u: UserId): Db
    requires u in db.epochs
  {
    Db(WithoutUser(db.rows, u), db.epochs[u := db.epochs[u] + 1], db.passwords - {u}, db.resets)
  }

  /** The step ends every session of the account: a reset that succeeds, or a first verification. */
  predicate EndsSessions(db: Db, e: Event, u: UserId) {
    match e
    case ApplyReset(v, _, token) => v == u && ResetSucceeds(db, u, token)
    case VerifyFirst(v) => v == u
    case _ => false
  }

  // --------------------------------------------------------------------- steps

  predicate Fresh(s: State, names: set<string>) { names !! s.issued }

  ghost predicate Enabled(s: State, e: Event) {
    match e
    case Tick(to) => s.now <= to
    case CreateAccount(u, _) => Fresh(s, {u})
    case DeleteAccount(u) => true
    case Login(u, id, token, f) =>
      u in s.db.epochs && Fresh(s, {id, token, f}) && id != token && id != f && token != f
    case BeginRotate(c, raw, found) => c !in s.calls && LooksUp(s.db.rows, raw, found)
    case Decide(c) => c in s.calls && s.calls[c].Found?
    case LookChild(c) => c in s.calls && s.calls[c].AskChild?
    case RunConsume(c, childId, childToken) =>
      c in s.calls && s.calls[c].Consume? && Fresh(s, {childId, childToken}) && childId != childToken
    case AbortConsume(c) => c in s.calls && s.calls[c].Consume?
    case RunWipe(c) => c in s.calls && s.calls[c].Wipe?
    case BeginLogout(c, raw, found) => c !in s.calls && LooksUp(s.db.rows, raw, found)
    case RevokeAll(u) => true
    case Sweep(cutoff) => cutoff <= s.now
    case VerifyFirst(u) => u in s.db.epochs && u in s.db.passwords
    case IssueReset(u, token) => u in s.db.epochs && Fresh(s, {token})
    case ApplyReset(u, password, token) => true
  }

  function SetRows(s: State, rows: Rows): State { s.(db := s.db.(rows := rows)) }

  function Goto(s: State, c: CallId, pc: Pc): State { s.(calls := s.calls[c := pc]) }

  ghost function Step(s: State, e: Event): State
    requires Enabled(s, e)
  {
    match e
    case Tick(to) => s.(now := to)
    case CreateAccount(u, p) =>
      s.(db := s.db.(epochs := s.db.epochs[u := 0], passwords := s.db.passwords[u := p]), issued := s.issued + {u})
    case DeleteAccount(u) =>
      s.(db := Db(WithoutUser(s.db.rows, u), s.db.epochs - {u}, s.db.passwords - {u}, s.db.resets - {u}))
    case Login(u, id, token, f) =>
      SetRows(s, s.db.rows[id := NewRow(u, f, token, s.now)]).(issued := s.issued + {id, token, f})
    case BeginRotate(c, raw, found) =>
      Goto(s, c, if found.Some? then Found(found.value, s.db.rows[found.value]) else Returned(None))
    case Decide(c) => Goto(s, c, AfterFound(s.calls[c].id, s.calls[c].row, s.now))
    case LookChild(c) => Goto(s, c, AfterChild(s.db.rows, s.calls[c].family, s.calls[c].child))
    case RunConsume(c, childId, childToken) =>
      var (db, result) := ConsumeTx(s.db, s.now, s.calls[c].id, s.calls[c].row, childId, childToken);
      Goto(s, c, Returned(result)).(db := db, issued := s.issued + {childId, childToken})
    case AbortConsume(c) => Goto(s, c, Returned(None))
    case RunWipe(c) => SetRows(Goto(s, c, Returned(None)), WithoutFamily(s.db.rows, s.calls[c].family))
    case BeginLogout(c, raw, found) =>
      Goto(s, c, if found.Some? then Wipe(s.db.rows[found.value].family) else Returned(None))
    case RevokeAll(u) => SetRows(s, WithoutUser(s.db.rows, u))
    case Sweep(cutoff) => SetRows(s, WithoutExpired(s.db.rows, cutoff))
    case VerifyFirst(u) => s.(db := VerifyTx(s.db, u))
    case IssueReset(u, token) => s.(db := s.db.(resets := s.db.resets[u := token]), issued := s.issued + {token})
    case ApplyReset(u, p, token) => s.(db := ResetTx(s.db, u, p, token))
  }

  ghost predicate Init(s: State) {
    s.db == Db(map[], map[], map[], map[]) && s.calls == map[] && s.issued == {}
  }

  /** A run of the server: any interleaving of enabled steps. */
  ghost predicate Run(ss: seq<State>, es: seq<Event>) {
    && |ss| == |es| + 1
    && Init(ss[0])
    && forall i {:trigger es[i]} :: 0 <= i < |es| ==> Enabled(ss[i], es[i]) && ss[i + 1] == Step(ss[i], es[i])
  }
}
