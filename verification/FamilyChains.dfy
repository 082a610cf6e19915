/**
 What every reachable state of the session tables keeps: the stored rows of a
 family are one `replacedBy` chain whose rows are all used except perhaps the newest.
 */
module FamilyChains {
  import opened Prelude
  import opened Sessions

  /** `s` lists the stored rows of family `f` from the oldest to the newest. */
  ghost predicate IsChain(rows: Rows, f: FamilyId, s: seq<RowId>) {
    && Distinct(s)
    && (forall id :: id in s <==> id in rows && rows[id].family == f)
    && (forall i :: 0 <= i < |s| - 1 ==>
          && rows[s[i]].usedAt.Some?
          && rows[s[i]].replacedBy == Some(s[i + 1])
          && rows[s[i]].expiresAt <= rows[s[i + 1]].expiresAt)
    && (forall i, j :: 0 <= i < j < |s| ==> rows[s[i]].user == rows[s[j]].user)
    && (s != [] ==> rows[s[|s| - 1]].replacedBy == None)
  }

  ghost predicate HasChain(rows: Rows, f: FamilyId) {
    exists s :: IsChain(rows, f, s)
  }

  /** Two readings of one row may differ only by the row having been consumed in between. */
  predicate LaterReading(now: Row, before: Row) {
    && now.user == before.user && now.family == before.family
    && now.token == before.token && now.expiresAt == before.expiresAt
    && (before.usedAt.Some? ==> now.usedAt == before.usedAt && now.replacedBy == before.replacedBy)
  }

  ghost predicate TableInv(s: State) {
    && (forall id :: id in s.db.rows ==>
          && id in s.issued && s.db.rows[id].token in s.issued && s.db.rows[id].family in s.issued
          && s.db.rows[id].user in s.db.epochs
          && (s.db.rows[id].usedAt.Some? ==> s.db.rows[id].replacedBy.Some?)
          && s.db.rows[id].expiresAt <= s.now + REFRESH_TOKEN_TTL_MS)
    && (forall a, b :: a in s.db.rows && b in s.db.rows && s.db.rows[a].token == s.db.rows[b].token ==> a == b)
    && s.db.epochs.Keys <= s.issued
    && (forall u :: u in s.db.resets ==> s.db.resets[u] in s.issued)
    && (forall u, v :: u in s.db.resets && v in s.db.resets && s.db.resets[u] == s.db.resets[v] ==> u == v)
  }

  ghost predicate SnapshotInv(s: State, id: RowId, row: Row) {
    && id in s.issued && row.family in s.issued && row.token in s.issued
    && (id in s.db.rows ==> LaterReading(s.db.rows[id], row))
  }

  ghost predicate PcInv(s: State, pc: Pc) {
    match pc
    case Found(id, row) => SnapshotInv(s, id, row)
    case Consume(id, row) => SnapshotInv(s, id, row)
    case AskChild(f, _) => f in s.issued
    case Wipe(f) => f in s.issued
    case Returned(_) => true
  }

  ghost predicate CallsInv(s: State) {
    forall c :: c in s.calls ==> PcInv(s, s.calls[c])
  }

  ghost predicate Inv(s: State) {
    && TableInv(s)
    && CallsInv(s)
    && forall f :: HasChain(s.db.rows, f)
  }

  // ------------------------------------------------------ chains, step by step

  /** A family none of whose rows changed keeps its chain. */
  lemma ChainUntouched(rows: Rows, rows': Rows, f: FamilyId)
    requires HasChain(rows, f)
    requires forall id :: id in rows' && rows'[id].family == f ==> id in rows && rows[id].family == f
    requires forall id :: id in rows && rows[id].family == f ==> id in rows' && rows'[id] == rows[id]
    ensures HasChain(rows', f)
  {
    var s :| IsChain(rows, f, s);
    assert forall i :: 0 <= i < |s| ==> s[i] in s && s[i] in rows && rows'[s[i]] == rows[s[i]];
    assert IsChain(rows', f, s);
  }

  lemma ChainEmpty(rows: Rows, f: FamilyId)
    requires forall id :: id in rows ==> rows[id].family != f
    ensures HasChain(rows, f)
  {
    assert IsChain(rows, f, []);
  }

  /** Rows of one family belong to one user, so deleting a user's rows takes all or none. */
  lemma ChainWithoutUser(rows: Rows, f: FamilyId, u: UserId)
    requires HasChain(rows, f)
    ensures HasChain(WithoutUser(rows, u), f)
    ensures (forall id :: id in rows && rows[id].family == f ==> id !in WithoutUser(rows, u))
            || (forall id :: id in rows && rows[id].family == f ==> id in WithoutUser(rows, u))
  {
    var s :| IsChain(rows, f, s);
    if s != [] && rows[s[0]].user == u {
      assert forall id :: id in rows && rows[id].family == f ==> id in s;
      ChainEmpty(WithoutUser(rows, u), f);
    } else {
      assert forall i :: 0 <= i < |s| ==> s[i] in s && rows[s[i]].user != u;
      assert forall id :: id in rows && rows[id].family == f ==> id in s && rows[id].user != u;
      ChainUntouched(rows, WithoutUser(rows, u), f);
    }
  }

  /** Expiry grows along a chain, so an expiry sweep drops its oldest rows. */
  lemma ChainAfterSweep(rows: Rows, f: FamilyId, s: seq<RowId>, cutoff: int)
    requires IsChain(rows, f, s)
    ensures exists k :: 0 <= k <= |s| && IsChain(WithoutExpired(rows, cutoff), f, s[k..])
  {
    var k := 0;
    assert forall i :: 0 <= i < |s| ==> s[i] in s;
    while k < |s| && rows[s[k]].expiresAt < cutoff
      invariant 0 <= k <= |s|
      invariant forall i :: 0 <= i < k ==> rows[s[i]].expiresAt < cutoff
    {
      k := k + 1;
    }
    ExpiryGrows(rows, f, s, k);
    SuffixIsChain(rows, f, s, k, cutoff);
  }

  lemma SuffixIsChain(rows: Rows, f: FamilyId, s: seq<RowId>, k: nat, cutoff: int)
    requires IsChain(rows, f, s) && k <= |s| && forall i :: 0 <= i < |s| ==> s[i] in rows
    requires forall i :: 0 <= i < |s| ==> (rows[s[i]].expiresAt < cutoff <==> i < k)
    ensures IsChain(WithoutExpired(rows, cutoff), f, s[k..])
  {
    var rows' := WithoutExpired(rows, cutoff);
    var t := s[k..];
    assert forall i :: 0 <= i < |t| ==> t[i] == s[i + k] && t[i] in rows' && rows'[t[i]] == rows[s[i + k]];
    forall id ensures id in t <==> id in rows' && rows'[id].family == f { SuffixHolds(rows, f, s, k, cutoff, id); }
    if t != [] { assert t[|t| - 1] == s[|s| - 1]; }
  }

  /** The suffix lists exactly the family's rows the sweep leaves. */
  lemma SuffixHolds(rows: Rows, f: FamilyId, s: seq<RowId>, k: nat, cutoff: int, id: RowId)
    requires IsChain(rows, f, s) && k <= |s| && forall i :: 0 <= i < |s| ==> s[i] in rows
    requires forall i :: 0 <= i < |s| ==> (rows[s[i]].expiresAt < cutoff <==> i < k)
    ensures id in s[k..] <==> id in WithoutExpired(rows, cutoff) && rows[id].family == f
  {
    if id in s {
      var i :| 0 <= i < |s| && s[i] == id;
      if i >= k { assert s[k..][i - k] == id; }
    }
  }

  lemma {:induction false} ExpiryGrows(rows: Rows, f: FamilyId, s: seq<RowId>, k: nat)
    requires IsChain(rows, f, s) && k <= |s|
    ensures forall i :: 0 <= i < |s| ==> s[i] in rows
    ensures forall i :: k <= i < |s| ==> rows[s[k]].expiresAt <= rows[s[i]].expiresAt
  {
    assert forall i :: 0 <= i < |s| ==> s[i] in s;
    var j := k;
    while j < |s|
      invariant k <= j <= |s|
      invariant forall i :: k <= i < j ==> rows[s[k]].expiresAt <= rows[s[i]].expiresAt
    {
      if j > k { assert rows[s[j - 1]].expiresAt <= rows[s[j - 1 + 1]].expiresAt; }
      j := j + 1;
    }
  }

  /** The unused row of a family is the newest of its chain. */
  lemma UnusedIsNewest(rows: Rows, id: RowId, s: seq<RowId>)
    requires id in rows && rows[id].usedAt == None && IsChain(rows, rows[id].family, s)
    ensures s != [] && s[|s| - 1] == id
    ensures forall i :: 0 <= i < |s| ==> s[i] in rows && rows[s[i]].user == rows[id].user
  {
    assert id in s;
    assert forall i :: 0 <= i < |s| ==> s[i] in s;
    var n :| 0 <= n < |s| && s[n] == id;
    assert n == |s| - 1;
  }

  /** Consuming the newest row puts its child on the end. */
  lemma ChainAfterMint(rows: Rows, id: RowId, now: int, childId: RowId, child: Row, s: seq<RowId>)
    requires id in rows && rows[id].usedAt == None && childId !in rows
    requires IsChain(rows, rows[id].family, s)
    requires child.family == rows[id].family && child.user == rows[id].user
    requires rows[id].expiresAt <= child.expiresAt && child.replacedBy == None
    ensures IsChain(rows[id := rows[id].(usedAt := Some(now), replacedBy := Some(childId))][childId := child],
                    rows[id].family, s + [childId])
  {
    UnusedIsNewest(rows, id, s);
    var rows' := rows[id := rows[id].(usedAt := Some(now), replacedBy := Some(childId))][childId := child];
    var t := s + [childId];
    forall x ensures x in t <==> x in rows' && rows'[x].family == rows[id].family {
      assert x in t <==> x in s || x == childId;
    }
    forall i | 0 <= i < |s|
      ensures rows'[t[i]].usedAt.Some? && rows'[t[i]].replacedBy == Some(t[i + 1])
      ensures rows'[t[i]].expiresAt <= rows'[t[i + 1]].expiresAt && rows'[t[i]].user == child.user
    {
      assert s[i] in s && (i < |s| - 1 ==> s[i] != id && s[i + 1] in s);
    }
  }

  lemma ChainAfterLogin(rows: Rows, id: RowId, row: Row)
    requires id !in rows && row.replacedBy == None
    requires forall x :: x in rows ==> rows[x].family != row.family
    ensures HasChain(rows[id := row], row.family)
  {
    assert IsChain(rows[id := row], row.family, [id]);
  }
}
