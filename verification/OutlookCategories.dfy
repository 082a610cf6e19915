/**
 Reconciling folder categories on Outlook messages. Categories are compared up
 to case, each message is read, merged and written on its own, and a message
 that looks right already is skipped.
 */
module OutlookCategories {
  /** The host's lower-casing; any function will do. */
  type Fold = string -> string

  function Folds(fold: Fold, cs: seq<string>): set<string> { set c | c in cs :: fold(c) }

  /** No two categories differ only in case. */
  ghost predicate DistinctUpToCase(fold: Fold, cs: seq<string>) {
    forall i, j :: 0 <= i < j < |cs| ==> fold(cs[i]) != fold(cs[j])
  }

  /** `Map.set` under the folded key: a known key keeps its place and takes the new spelling. */
  function Put(fold: Fold, cs: seq<string>, c: string): seq<string> {
    if cs == [] then [c]
    else if fold(cs[0]) == fold(c) then [c] + cs[1..]
    else [cs[0]] + Put(fold, cs[1..], c)
  }

  function PutAll(fold: Fold, cs: seq<string>, more: seq<string>): seq<string>
    decreases |more|
  {
    if more == [] then cs else PutAll(fold, Put(fold, cs, more[0]), more[1..])
  }

  /** The categories nobody but the user manages. */
  function Unmanaged(fold: Fold, cs: seq<string>, managed: set<string>): seq<string> {
    if cs == [] then []
    else (if fold(cs[0]) in managed then [] else [cs[0]]) + Unmanaged(fold, cs[1..], managed)
  }

  function Next(fold: Fold, current: seq<string>, desired: seq<string>, managed: set<string>): seq<string> {
    PutAll(fold, PutAll(fold, [], Unmanaged(fold, current, managed)), desired)
  }

  /** The skip test: as many, and every current one among the next. */
  predicate Skips(fold: Fold, current: seq<string>, next: seq<string>) {
    |next| == |current| && forall c :: c in current ==> fold(c) in Folds(fold, next)
  }

  /** What one message carries after the call. */
  function Reconciled(fold: Fold, current: seq<string>, desired: seq<string>, managed: set<string>): seq<string> {
    var next := Next(fold, current, desired, managed);
    if Skips(fold, current, next) then current else next
  }

  predicate AllSkip(fold: Fold, categories: map<string, seq<string>>, ids: seq<string>, desired: seq<string>, managed: set<string>) {
    forall id :: id in ids && id in categories ==> Skips(fold, categories[id], Next(fold, categories[id], desired, managed))
  }

  class Messages {
    var categories: map<string, seq<string>>   // by message id
    var writes: nat
    ghost var failures: nat                    // requests that failed

    constructor (categories: map<string, seq<string>>)
      ensures this.categories == categories && writes == 0
    {
      this.categories, writes := categories, 0;
    }

    /** PATCH: replaces the whole list; the message may have gone meanwhile, and the request may fail. */
    method Patch(id: string, next: seq<string>) returns (status: int)
      requires id in categories
      modifies this
      ensures writes == old(writes) + 1
      ensures status == 200 ==> categories == old(categories)[id := next]
      ensures status == 404 ==> categories == old(categories) - {id}
      ensures status != 200 && status != 404 ==> categories == old(categories)
      ensures failures == old(failures) + if status == 200 || status == 404 then 0 else 1
    {
      var gone: bool, fails: bool := *, *;
      writes := writes + 1;
      if gone {
        categories := categories - {id};
        return 404;
      }
      if fails {
        failures := failures + 1;
        return 500;
      }
      categories := categories[id := next];
      return 200;
    }

    /** Read, merge and write one message; `ok` is false when a request fails. */
    method ReconcileMessage(fold: Fold, id: string, desired: seq<string>, managed: set<string>) returns (ok: bool)
      modifies this
      ensures categories.Keys <= old(categories).Keys
      ensures forall other :: other in old(categories) && other != id ==> other in categories && categories[other] == old(categories)[other]
      ensures ok && id in categories ==> categories[id] == Reconciled(fold, old(categories)[id], desired, managed)
      ensures !ok ==> categories == old(categories)
      // a vanished message is no failure
      ensures ok <==> failures == old(failures)
      ensures old(failures) <= failures
      ensures (id in old(categories) ==> Skips(fold, old(categories)[id], Next(fold, old(categories)[id], desired, managed))) ==>
                writes == old(writes) && categories == old(categories)
    {
      var fails: bool := *;
      if fails {
        failures := failures + 1;
        return false;
      }
      if id !in categories { return true; }
      var current := categories[id];
      var next := Next(fold, current, desired, managed);
      if Skips(fold, current, next) { return true; }
      var status := Patch(id, next);
      ok := status == 200 || status == 404;
    }

    /** `ok` is false when the call throws; messages not reached are then as they were. */
    method ApplyThreadFolderLabels(fold: Fold, messageIds: seq<string>, desired: seq<string>, managedLabelIds: seq<string>)
      returns (ok: bool)
      modifies this
      ensures forall id :: id in categories ==> id in old(categories)
      ensures forall id :: id in categories && id !in messageIds ==> categories[id] == old(categories)[id]
      ensures forall id :: id in categories && id in messageIds ==>
        var after := Reconciled(fold, old(categories)[id], desired, Folds(fold, managedLabelIds));
        categories[id] == after || (!ok && categories[id] == old(categories)[id])
      // messages that already look right are not written, so a second call after an ok one writes nothing
      ensures AllSkip(fold, old(categories), messageIds, desired, Folds(fold, managedLabelIds)) ==>
                writes == old(writes) && categories == old(categories)
      ensures ok ==> AllSkip(fold, categories, messageIds, desired, Folds(fold, managedLabelIds))
      ensures ok <==> failures == old(failures)
    {
      var managed := Folds(fold, managedLabelIds);
      ok := true;
      for i := 0 to |messageIds|
        invariant ok && failures == old(failures)
        invariant ReconciledUpTo(fold, old(categories), categories, messageIds, i, desired, managed)
        invariant AllSkip(fold, old(categories), messageIds, desired, managed) ==>
          writes == old(writes) && categories == old(categories)
      {
        ghost var before := categories;
        ok := ReconcileMessage(fold, messageIds[i], desired, managed);
        if !ok { return; }
        OneMoreReconciled(fold, old(categories), before, categories, messageIds, i, desired, managed);
      }
      ReconciledSkip(fold, old(categories), categories, messageIds, desired, managed);
    }
  }

  /** The first `n` messages of the list are reconciled, the others are as they were. */
  ghost predicate ReconciledUpTo(fold: Fold, before: map<string, seq<string>>, after: map<string, seq<string>>,
                                 ids: seq<string>, n: nat, desired: seq<string>, managed: set<string>)
  {
    && n <= |ids| && after.Keys <= before.Keys
    && forall id :: id in after ==>
         after[id] == if id in ids[..n] then Reconciled(fold, before[id], desired, managed) else before[id]
  }

  lemma OneMoreReconciled(fold: Fold, start: map<string, seq<string>>, before: map<string, seq<string>>,
                          after: map<string, seq<string>>, ids: seq<string>, n: nat, desired: seq<string>, managed: set<string>)
    requires n < |ids| && ReconciledUpTo(fold, start, before, ids, n, desired, managed)
    requires after.Keys <= before.Keys
    requires forall other :: other in after && other != ids[n] ==> after[other] == before[other]
    requires ids[n] in after ==> after[ids[n]] == Reconciled(fold, before[ids[n]], desired, managed)
    ensures ReconciledUpTo(fold, start, after, ids, n + 1, desired, managed)
  {
    assert ids[..n + 1] == ids[..n] + [ids[n]];
    if ids[n] in after { ReconcileTwice(fold, start[ids[n]], desired, managed); }
  }

  lemma ReconciledSkip(fold: Fold, before: map<string, seq<string>>, after: map<string, seq<string>>,
                       ids: seq<string>, desired: seq<string>, managed: set<string>)
    requires ReconciledUpTo(fold, before, after, ids, |ids|, desired, managed)
    ensures AllSkip(fold, after, ids, desired, managed)
  {
    assert ids[..|ids|] == ids;
    forall id | id in ids && id in after ensures Skips(fold, after[id], Next(fold, after[id], desired, managed)) {
      ReconcileTwice(fold, before[id], desired, managed);
    }
  }

  // ------------------------------------------------------------ the folded map

  lemma {:induction false} PutFolds(fold: Fold, cs: seq<string>, c: string)
    ensures Folds(fold, Put(fold, cs, c)) == Folds(fold, cs) + {fold(c)}
  {
    if cs != [] {
      PutFolds(fold, cs[1..], c);
      FoldsHead(fold, cs[0], cs[1..]);
      assert cs == [cs[0]] + cs[1..];
      if fold(cs[0]) == fold(c) { FoldsHead(fold, c, cs[1..]); }
      else { FoldsHead(fold, cs[0], Put(fold, cs[1..], c)); }
    }
  }

  lemma FoldsHead(fold: Fold, c: string, cs: seq<string>)
    ensures Folds(fold, [c] + cs) == {fold(c)} + Folds(fold, cs)
  {
  }

  lemma {:induction false} PutStaysDistinct(fold: Fold, cs: seq<string>, c: string)
    requires DistinctUpToCase(fold, cs)
    ensures DistinctUpToCase(fold, Put(fold, cs, c))
  {
    if cs != [] && fold(cs[0]) != fold(c) {
      var rest := Put(fold, cs[1..], c);
      PutStaysDistinct(fold, cs[1..], c);
      PutFolds(fold, cs[1..], c);
      forall j | 0 <= j < |rest| ensures fold(rest[j]) != fold(cs[0]) {
        assert fold(rest[j]) in Folds(fold, rest);
      }
    }
  }

  lemma FoldsJoin(fold: Fold, a: seq<string>, b: seq<string>)
    ensures Folds(fold, a + b) == Folds(fold, a) + Folds(fold, b)
  {
  }

  lemma {:induction false} PutAllFolds(fold: Fold, cs: seq<string>, more: seq<string>)
    ensures Folds(fold, PutAll(fold, cs, more)) == Folds(fold, cs) + Folds(fold, more)
    decreases |more|
  {
    if more != [] {
      PutFolds(fold, cs, more[0]);
      PutAllFolds(fold, Put(fold, cs, more[0]), more[1..]);
      assert more == [more[0]] + more[1..];
      FoldsHead(fold, more[0], more[1..]);
    }
  }

  lemma {:induction false} PutAllStaysDistinct(fold: Fold, cs: seq<string>, more: seq<string>)
    requires DistinctUpToCase(fold, cs)
    ensures DistinctUpToCase(fold, PutAll(fold, cs, more))
    decreases |more|
  {
    if more != [] {
      PutStaysDistinct(fold, cs, more[0]);
      PutAllStaysDistinct(fold, Put(fold, cs, more[0]), more[1..]);
    }
  }

  lemma {:induction false} UnmanagedFolds(fold: Fold, cs: seq<string>, managed: set<string>)
    ensures Folds(fold, Unmanaged(fold, cs, managed)) == Folds(fold, cs) - managed
  {
    if cs != [] {
      UnmanagedFolds(fold, cs[1..], managed);
      assert cs == [cs[0]] + cs[1..];
      FoldsJoin(fold, [cs[0]], cs[1..]);
      FoldsJoin(fold, if fold(cs[0]) in managed then [] else [cs[0]], Unmanaged(fold, cs[1..], managed));
    }
  }

  /** What the next list holds up to case, and that it holds each once. */
  lemma NextFolds(fold: Fold, current: seq<string>, desired: seq<string>, managed: set<string>)
    ensures Folds(fold, Next(fold, current, desired, managed)) == (Folds(fold, current) - managed) + Folds(fold, desired)
    ensures DistinctUpToCase(fold, Next(fold, current, desired, managed))
  {
    var kept := Unmanaged(fold, current, managed);
    UnmanagedFolds(fold, current, managed);
    PutAllFolds(fold, [], kept);
    PutAllFolds(fold, PutAll(fold, [], kept), desired);
    PutAllStaysDistinct(fold, [], kept);
    PutAllStaysDistinct(fold, PutAll(fold, [], kept), desired);
  }

  lemma {:induction false} FoldsSize(fold: Fold, cs: seq<string>)
    ensures |Folds(fold, cs)| <= |cs|
    ensures |Folds(fold, cs)| == |cs| <==> DistinctUpToCase(fold, cs)
  {
    if cs != [] {
      var init, last := cs[..|cs| - 1], cs[|cs| - 1];
      FoldsSize(fold, init);
      assert cs == init + [last];
      FoldsLast(fold, init, last);
      DistinctLast(fold, init, last);
    }
  }

  lemma FoldsLast(fold: Fold, init: seq<string>, last: string)
    ensures Folds(fold, init + [last]) == Folds(fold, init) + {fold(last)}
    ensures |Folds(fold, init + [last])| == |Folds(fold, init)| + if fold(last) in Folds(fold, init) then 0 else 1
  {
    FoldsJoin(fold, init, [last]);
    assert Folds(fold, [last]) == {fold(last)};
    if fold(last) in Folds(fold, init) { assert Folds(fold, init) + {fold(last)} == Folds(fold, init); }
  }

  lemma DistinctLast(fold: Fold, init: seq<string>, last: string)
    ensures DistinctUpToCase(fold, init + [last]) <==> DistinctUpToCase(fold, init) && fold(last) !in Folds(fold, init)
  {
    var cs := init + [last];
    assert forall i :: 0 <= i < |init| ==> cs[i] == init[i] && init[i] in init;
    if DistinctUpToCase(fold, cs) {
      forall c | c in init ensures fold(c) != fold(last) {
        var i :| 0 <= i < |init| && init[i] == c;
        assert fold(cs[i]) != fold(cs[|init|]);
      }
    }
  }

  lemma SameSizeSubset(a: set<string>, b: set<string>)
    requires a <= b && |a| == |b|
    ensures a == b
  {
    assert |b - a| == 0 by { assert b == a + (b - a); }
  }

  // --------------------------------------------------------------- convergence

  /** Managed categories are exactly the desired ones and the others are all still there, up to case. */
  predicate Converged(fold: Fold, before: seq<string>, after: seq<string>, desired: seq<string>, managed: set<string>) {
    Folds(fold, after) == (Folds(fold, before) - managed) + Folds(fold, desired)
  }

  /** The reconcile converges exactly when it writes, or the message had no two spellings of one category. */
  lemma ConvergesIff(fold: Fold, current: seq<string>, desired: seq<string>, managed: set<string>)
    ensures Converged(fold, current, Reconciled(fold, current, desired, managed), desired, managed) <==>
            !Skips(fold, current, Next(fold, current, desired, managed)) || DistinctUpToCase(fold, current)
  {
    var next := Next(fold, current, desired, managed);
    NextFolds(fold, current, desired, managed);
    FoldsSize(fold, next);
    FoldsSize(fold, current);
    if Skips(fold, current, next) {
      assert Folds(fold, current) <= Folds(fold, next);
      if DistinctUpToCase(fold, current) { SameSizeSubset(Folds(fold, current), Folds(fold, next)); }
    }
  }

  /**
   A message with two spellings of a category can be skipped although a desired
   one is missing: it carries "vip" and "VIP", the folder category is desired,
   and it is left without it. Any lower-casing that tells the two apart will do.
   */
  lemma TwoSpellingsCanBeSkipped(fold: Fold)
    requires fold("VIP") == fold("vip") != fold("Folders/Acme")
    ensures
      var current, desired, managed := ["vip", "VIP"], ["Folders/Acme"], {fold("Folders/Acme")};
      && Next(fold, current, desired, managed) == ["VIP", "Folders/Acme"]
      && Reconciled(fold, current, desired, managed) == current
      && fold("Folders/Acme") !in Folds(fold, current)
      && !Converged(fold, current, current, desired, managed)
  {
    var current, desired, managed := ["vip", "VIP"], ["Folders/Acme"], {fold("Folders/Acme")};
    var kept := Unmanaged(fold, current, managed);
    assert Unmanaged(fold, ["VIP"], managed) == ["VIP"];
    assert kept == ["vip", "VIP"];
    assert PutAll(fold, ["vip"], ["VIP"]) == ["VIP"] by { assert PutAll(fold, Put(fold, ["vip"], "VIP"), []) == ["VIP"]; }
    assert PutAll(fold, [], kept) == ["VIP"] by { assert kept[1..] == ["VIP"]; }
    assert Put(fold, ["VIP"], "Folders/Acme") == ["VIP", "Folders/Acme"];
    var next := Next(fold, current, desired, managed);
    assert next == ["VIP", "Folders/Acme"] by { assert PutAll(fold, ["VIP", "Folders/Acme"], []) == ["VIP", "Folders/Acme"]; }
    assert fold(next[0]) in Folds(fold, next);
    assert Skips(fold, current, next);
    assert fold(desired[0]) in Folds(fold, desired);
  }

  /** A second reconcile of the same message writes nothing, whatever it started from. */
  lemma ReconcileTwice(fold: Fold, current: seq<string>, desired: seq<string>, managed: set<string>)
    ensures
      var after := Reconciled(fold, current, desired, managed);
      && Skips(fold, after, Next(fold, after, desired, managed))
      && Reconciled(fold, after, desired, managed) == after
  {
    var next := Next(fold, current, desired, managed);
    if !Skips(fold, current, next) {
      NextFolds(fold, current, desired, managed);
      NextFolds(fold, next, desired, managed);
      var again := Next(fold, next, desired, managed);
      assert Folds(fold, again) == Folds(fold, next);
      FoldsSize(fold, next);
      FoldsSize(fold, again);
      assert forall c :: c in next ==> fold(c) in Folds(fold, next);
    }
  }

  // --------------------------------------------------------- foreign categories

  lemma {:induction false} PutNewAppends(fold: Fold, cs: seq<string>, c: string)
    requires fold(c) !in Folds(fold, cs)
    ensures Put(fold, cs, c) == cs + [c]
  {
    if cs != [] {
      assert cs[0] in cs;
      assert Folds(fold, cs[1..]) <= Folds(fold, cs);
      PutNewAppends(fold, cs[1..], c);
    }
  }

  /** Putting distinct new categories appends them as they are. */
  lemma {:induction false} PutAllNewAppends(fold: Fold, cs: seq<string>, more: seq<string>)
    requires DistinctUpToCase(fold, cs + more)
    ensures PutAll(fold, cs, more) == cs + more
    decreases |more|
  {
    if more == [] {
      assert cs + more == cs;
    } else {
      assert (cs + more)[|cs|] == more[0];
      assert fold(more[0]) !in Folds(fold, cs) by {
        forall c | c in cs ensures fold(c) != fold(more[0]) {
          var i :| 0 <= i < |cs| && cs[i] == c;
          assert (cs + more)[i] == c;
        }
      }
      PutNewAppends(fold, cs, more[0]);
      assert (cs + [more[0]]) + more[1..] == cs + more;
      PutAllNewAppends(fold, cs + [more[0]], more[1..]);
    }
  }

  lemma {:induction false} UnmanagedDistinct(fold: Fold, cs: seq<string>, managed: set<string>)
    requires DistinctUpToCase(fold, cs)
    ensures DistinctUpToCase(fold, Unmanaged(fold, cs, managed))
  {
    if cs != [] {
      UnmanagedDistinct(fold, cs[1..], managed);
      var rest := Unmanaged(fold, cs[1..], managed);
      UnmanagedFolds(fold, cs[1..], managed);
      forall j | 0 <= j < |rest| ensures fold(rest[j]) != fold(cs[0]) {
        assert fold(rest[j]) in Folds(fold, rest);
        var c :| c in cs[1..] && fold(c) == fold(rest[j]);
        var i :| 0 <= i < |cs[1..]| && cs[1..][i] == c;
        assert cs[i + 1] == c;
      }
    }
  }

  /** Putting categories with other keys leaves the front of the list alone. */
  lemma {:induction false} PutAllKeepsFront(fold: Fold, front: seq<string>, tail: seq<string>, more: seq<string>)
    requires forall c :: c in more ==> fold(c) !in Folds(fold, front)
    ensures exists rest :: PutAll(fold, front + tail, more) == front + rest
    decreases |more|
  {
    if more == [] {
      assert PutAll(fold, front + tail, more) == front + tail;
    } else {
      PutKeepsFront(fold, front, tail, more[0]);
      PutAllKeepsFront(fold, front, Put(fold, tail, more[0]), more[1..]);
    }
  }

  lemma {:induction false} PutKeepsFront(fold: Fold, front: seq<string>, tail: seq<string>, c: string)
    requires fold(c) !in Folds(fold, front)
    ensures Put(fold, front + tail, c) == front + Put(fold, tail, c)
  {
    if front == [] {
      assert front + tail == tail;
    } else {
      assert (front + tail)[1..] == front[1..] + tail;
      assert front[0] in front;
      assert Folds(fold, front[1..]) <= Folds(fold, front);
      PutKeepsFront(fold, front[1..], tail, c);
    }
  }

  /** A category put in stays in unless another spelling of it is put in later. */
  lemma {:induction false} PutAllKeeps(fold: Fold, cs: seq<string>, more: seq<string>, c: string)
    requires c in cs && forall d :: d in more && fold(d) == fold(c) ==> d == c
    requires DistinctUpToCase(fold, cs)
    ensures c in PutAll(fold, cs, more)
    decreases |more|
  {
    if more != [] {
      PutKeeps(fold, cs, more[0], c);
      PutStaysDistinct(fold, cs, more[0]);
      PutAllKeeps(fold, Put(fold, cs, more[0]), more[1..], c);
    }
  }

  lemma {:induction false} PutKeeps(fold: Fold, cs: seq<string>, d: string, c: string)
    requires c in cs && (fold(d) == fold(c) ==> d == c)
    ensures c in Put(fold, cs, d)
  {
    if cs[0] != c || fold(cs[0]) != fold(d) {
      if c in cs[1..] && fold(cs[0]) != fold(d) { PutKeeps(fold, cs[1..], d, c); }
    }
  }

  lemma {:induction false} PutHas(fold: Fold, cs: seq<string>, c: string)
    ensures c in Put(fold, cs, c)
  {
    if cs != [] && fold(cs[0]) != fold(c) { PutHas(fold, cs[1..], c); }
  }

  lemma {:induction false} PutAllHas(fold: Fold, cs: seq<string>, more: seq<string>, c: string)
    requires c in more && DistinctUpToCase(fold, cs) && forall d :: d in more && fold(d) == fold(c) ==> d == c
    ensures c in PutAll(fold, cs, more)
    decreases |more|
  {
    PutStaysDistinct(fold, cs, more[0]);
    if c in more[1..] {
      PutAllHas(fold, Put(fold, cs, more[0]), more[1..], c);
    } else {
      PutHas(fold, cs, c);
      PutAllKeeps(fold, Put(fold, cs, more[0]), more[1..], c);
    }
  }

  /** A desired category is in the next list spelled as desired, whatever spelling the message had. */
  lemma DesiredAreSpelledAsGiven(fold: Fold, current: seq<string>, desired: seq<string>, managed: set<string>, c: string)
    requires c in desired && forall d :: d in desired && fold(d) == fold(c) ==> d == c
    ensures c in Next(fold, current, desired, managed)
  {
    var kept := PutAll(fold, [], Unmanaged(fold, current, managed));
    PutAllStaysDistinct(fold, [], Unmanaged(fold, current, managed));
    PutAllHas(fold, kept, desired, c);
  }

  /** The user's own categories come first in the next list, spelled and ordered as they were. */
  lemma NextStartsWithKept(fold: Fold, current: seq<string>, desired: seq<string>, managed: set<string>)
    requires DistinctUpToCase(fold, current) && Folds(fold, desired) <= managed
    ensures Unmanaged(fold, current, managed) <= Next(fold, current, desired, managed)
  {
    var kept := Unmanaged(fold, current, managed);
    UnmanagedDistinct(fold, current, managed);
    assert [] + kept == kept;
    PutAllNewAppends(fold, [], kept);
    UnmanagedFolds(fold, current, managed);
    assert kept + [] == kept;
    forall c | c in desired ensures fold(c) !in Folds(fold, kept) { assert fold(c) in Folds(fold, desired); }
    PutAllKeepsFront(fold, kept, [], desired);
  }

  /**
   With the desired categories among the managed ones and no two spellings on the
   message, the user's own categories keep their spelling and their order, ahead
   of the managed ones if the list was rewritten.
   */
  lemma ForeignCategoriesAreKept(fold: Fold, current: seq<string>, desired: seq<string>, managed: set<string>)
    requires DistinctUpToCase(fold, current) && Folds(fold, desired) <= managed
    ensures
      var after := Reconciled(fold, current, desired, managed);
      && Folds(fold, after) * managed == Folds(fold, desired)
      && (after == current || Unmanaged(fold, current, managed) <= after)
  {
    ConvergesIff(fold, current, desired, managed);
    NextStartsWithKept(fold, current, desired, managed);
  }
}
