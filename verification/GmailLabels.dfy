/**
 Writing folders back to Gmail as labels: provisioning a label for every prefix
 of every folder path, and reconciling one thread's labels. Between two requests
 other clients may add labels; nobody deletes them.
 */
module GmailLabels {
  import opened Prelude

  /** Label names to ids, as the provider has them. */
  type Labels = map<string, string>

  datatype Def = Def(nodeId: string, pathSegments: seq<string>)

  function Join(segments: seq<string>): string {
    if segments == [] then ""
    else if |segments| == 1 then segments[0]
    else Join(segments[..|segments| - 1]) + "/" + segments[|segments| - 1]
  }

  function FullName(d: Def): string { Join(d.pathSegments) }

  /** Folder paths as label names. */
  lemma NamesNest()
    ensures Join(["Aziru"]) == "Aziru" && Join(["Aziru", "Clients"]) == "Aziru/Clients"
    ensures Join(["Aziru", "Clients", "Acme"]) == "Aziru/Clients/Acme"
  {
    assert ["Aziru", "Clients"][..1] == ["Aziru"];
    assert ["Aziru", "Clients", "Acme"][..2] == ["Aziru", "Clients"];
  }

  /** `name` is some prefix of some folder path. */
  ghost predicate IsPrefixOf(defs: seq<Def>, name: string) {
    exists k, n :: 0 <= k < |defs| && 0 < n <= |defs[k].pathSegments| && name == Join(defs[k].pathSegments[..n])
  }

  /** Every label there was is still there under its id. */
  predicate Kept(before: Labels, after: Labels) {
    forall name :: name in before ==> name in after && after[name] == before[name]
  }

  /** No label has this id. */
  ghost predicate Unassigned(labels: Labels, id: string) {
    forall name :: name in labels ==> labels[name] != id
  }

  /** The id is of a label in `created`, and was no label's id before. */
  ghost predicate NewLabel(before: Labels, labels: Labels, created: set<string>, id: string) {
    Unassigned(before, id) && exists name :: name in labels && labels[name] == id && name in created
  }

  lemma NewLabelStays(before: Labels, labels: Labels, created: set<string>, labels': Labels, created': set<string>, id: string)
    requires NewLabel(before, labels, created, id) && Kept(labels, labels') && created <= created'
    ensures NewLabel(before, labels', created', id)
  {
    var name :| name in labels && labels[name] == id && name in created;
    assert name in labels' && labels'[name] == id;
  }

  /** The definition that decides node `n`: the last one for it with a path. */
  ghost predicate Decides(defs: seq<Def>, k: int) {
    && 0 <= k < |defs| && defs[k].pathSegments != []
    && forall j :: k < j < |defs| && defs[j].nodeId == defs[k].nodeId ==> defs[j].pathSegments == []
  }

  /** What provisioning promises of its result, once it returns. */
  ghost predicate Provisioned(defs: seq<Def>, labels: Labels, result: map<string, string>) {
    && (forall k, n :: 0 <= k < |defs| && 0 < n <= |defs[k].pathSegments| ==> Join(defs[k].pathSegments[..n]) in labels)
    && (forall k :: Decides(defs, k) ==>
          defs[k].nodeId in result && FullName(defs[k]) in labels && result[defs[k].nodeId] == labels[FullName(defs[k])])
    && (forall node :: node in result ==> exists k :: Decides(defs, k) && defs[k].nodeId == node)
  }

  /** A longer path has a longer name. */
  lemma {:induction false} PrefixIsShorter(path: seq<string>, n: nat, i: nat)
    requires 0 < n < i <= |path|
    ensures |Join(path[..n])| < |Join(path[..i])|
  {
    assert path[..i][..i - 1] == path[..i - 1];
    if n < i - 1 { PrefixIsShorter(path, n, i - 1); }
  }

  /** What was created so far are missing prefixes of the path, up to `i` segments. */
  ghost predicate CreatedAlong(labels: Labels, before: set<string>, created: set<string>, path: seq<string>, i: nat) {
    && i <= |path| && before <= created
    && forall name :: name in created - before ==> name !in labels && exists n :: 0 < n <= i && name == Join(path[..n])
  }

  lemma AlongOneMore(labels: Labels, before: set<string>, mid: set<string>, created: set<string>, path: seq<string>,
                     i: nat, isNew: bool)
    requires i < |path| && CreatedAlong(labels, before, mid, path, i)
    requires created == if isNew then mid + {Join(path[..i + 1])} else mid
    requires isNew ==> Join(path[..i + 1]) !in labels && Join(path[..i + 1]) !in mid
    ensures CreatedAlong(labels, before, created, path, i + 1)
    ensures isNew <==> Join(path[..i + 1]) in created - before
  {
    var name := Join(path[..i + 1]);
    if name in mid - before {
      var n :| 0 < n <= i && name == Join(path[..n]);
      PrefixIsShorter(path, n, i + 1);
      assert false;
    }
    forall other | other in created - before
      ensures other !in labels && exists n :: 0 < n <= i + 1 && other == Join(path[..n])
    {
      if other != name { assert other in mid - before; }
    }
  }

  /** Definition `k` has a path whose own label is among these, and no earlier definition needed it as an ancestor. */
  ghost predicate LeafOf(defs: seq<Def>, k: int, created: set<string>) {
    0 <= k < |defs| && defs[k].pathSegments != [] && FullName(defs[k]) in created && !IsPrefixOf(defs[..k], FullName(defs[k]))
  }

  ghost predicate LeavesColored(defs: seq<Def>, labels: Labels, created: set<string>, recolored: set<string>) {
    && (forall k :: 0 <= k < |defs| && defs[k].pathSegments != [] ==> FullName(defs[k]) in labels)
    && (forall k :: LeafOf(defs, k, created) ==> labels[FullName(defs[k])] in recolored)
  }

  lemma MorePrefixes(defs: seq<Def>, i: nat)
    requires i < |defs|
    ensures forall name :: IsPrefixOf(defs[..i], name) ==> IsPrefixOf(defs[..i + 1], name) && IsPrefixOf(defs, name)
    ensures forall name :: IsPrefixOf(defs[..i + 1], name) ==> IsPrefixOf(defs, name)
  {
    forall name | IsPrefixOf(defs[..i], name) ensures IsPrefixOf(defs[..i + 1], name) && IsPrefixOf(defs, name) {
      var k, n :| 0 <= k < i && 0 < n <= |defs[..i][k].pathSegments| && name == Join(defs[..i][k].pathSegments[..n]);
      PathPrefix(defs[..i + 1], k, name);
      PathPrefix(defs, k, name);
    }
    forall name | IsPrefixOf(defs[..i + 1], name) ensures IsPrefixOf(defs, name) {
      var k, n :| 0 <= k < i + 1 && 0 < n <= |defs[..i + 1][k].pathSegments|
                  && name == Join(defs[..i + 1][k].pathSegments[..n]);
      PathPrefix(defs, k, name);
    }
  }

  lemma PathPrefix(defs: seq<Def>, k: nat, name: string)
    requires k < |defs| && exists n :: 0 < n <= |defs[k].pathSegments| && name == Join(defs[k].pathSegments[..n])
    ensures IsPrefixOf(defs, name)
  {
  }

  lemma SkippedLeaf(defs: seq<Def>, def: Def, labels: Labels, created: set<string>, recolored: set<string>)
    requires LeavesColored(defs, labels, created, recolored) && def.pathSegments == []
    ensures LeavesColored(defs + [def], labels, created, recolored)
  {
    var all := defs + [def];
    forall k | LeafOf(all, k, created) ensures labels[FullName(all[k])] in recolored {
      assert k < |defs| && all[k] == defs[k] && all[..k] == defs[..k];
      assert LeafOf(defs, k, created);
    }
  }

  /** One definition done: what it created is colored if it is its own leaf, and earlier leaves stay colored. */
  lemma LeafDone(defs: seq<Def>, def: Def, before: Labels, created0: set<string>, recolored0: set<string>,
                 labels: Labels, created: set<string>, recolored: set<string>, isNew: bool)
    requires LeavesColored(defs, before, created0, recolored0) && Kept(before, labels) && recolored0 <= recolored
    requires def.pathSegments != [] && FullName(def) in labels
    requires forall name :: name in created && name !in created0 ==> name !in before
    requires forall name :: name in created0 ==> IsPrefixOf(defs, name)
    requires FullName(def) in created && FullName(def) !in created0 ==> isNew
    requires isNew ==> labels[FullName(def)] in recolored
    ensures LeavesColored(defs + [def], labels, created, recolored)
  {
    var all := defs + [def];
    forall k | 0 <= k < |all| && all[k].pathSegments != [] ensures FullName(all[k]) in labels {
      if k < |defs| { assert all[k] == defs[k]; }
    }
    forall k | LeafOf(all, k, created) ensures labels[FullName(all[k])] in recolored {
      if k < |defs| {
        assert all[k] == defs[k] && all[..k] == defs[..k];
        assert LeafOf(defs, k, created0);
      } else {
        assert all[..k] == defs;
      }
    }
  }

  /** The first `i` definitions are done: what is known, what was created and colored on the way, and the result so far. */
  ghost predicate Progress(labels0: Labels, created0: set<string>, recolored0: set<string>, defs: seq<Def>, i: nat,
                           labels: Labels, created: set<string>, recolored: set<string>, known: Labels, out: map<string, string>)
  {
    && i <= |defs| && Kept(labels0, labels) && created0 <= created && recolored0 <= recolored && Kept(known, labels)
    && Provisioned(defs[..i], known, out) && LeavesColored(defs[..i], labels, created - created0, recolored)
    && (forall name :: name in created - created0 ==> name !in labels0 && IsPrefixOf(defs[..i], name) && IsPrefixOf(defs, name))
    && (forall id :: id in recolored - recolored0 ==> NewLabel(labels0, labels, created, id))
  }

  /** What one more path has created are missing prefixes as well. */
  lemma AfterPath(labels0: Labels, created0: set<string>, recolored0: set<string>, defs: seq<Def>, i: nat,
                  labels1: Labels, created1: set<string>, recolored: set<string>, known: Labels, out: map<string, string>,
                  labels: Labels, created: set<string>)
    requires i < |defs| && Progress(labels0, created0, recolored0, defs, i, labels1, created1, recolored, known, out)
    requires Kept(labels1, labels) && CreatedAlong(labels1, created1, created, defs[i].pathSegments, |defs[i].pathSegments|)
    ensures Kept(labels0, labels)
    ensures forall name :: name in created - created0 ==>
              name !in labels0 && IsPrefixOf(defs[..i + 1], name) && IsPrefixOf(defs, name)
    ensures forall id :: id in recolored - recolored0 ==> NewLabel(labels0, labels, created, id)
  {
    MorePrefixes(defs, i);
    forall name | name in created - created0 ensures name !in labels0 && IsPrefixOf(defs[..i + 1], name) && IsPrefixOf(defs, name) {
      if name in created1 {
        assert name in created1 - created0;
      } else {
        assert name in created - created1 && defs[..i + 1][i] == defs[i];
        PathPrefix(defs[..i + 1], i, name);
      }
    }
    forall id | id in recolored - recolored0 ensures NewLabel(labels0, labels, created, id) {
      NewLabelStays(labels0, labels1, created1, labels, created, id);
    }
  }

  lemma ProgressGrows(labels0: Labels, created0: set<string>, recolored0: set<string>, defs: seq<Def>, i: nat,
                      labels1: Labels, created1: set<string>, recolored1: set<string>, known: Labels, out: map<string, string>,
                      labels: Labels, created: set<string>, more: Labels, isNew: bool)
    requires i < |defs| && Progress(labels0, created0, recolored0, defs, i, labels1, created1, recolored1, known, out)
    requires defs[i].pathSegments != [] && Kept(labels1, labels)
    requires CreatedAlong(labels1, created1, created, defs[i].pathSegments, |defs[i].pathSegments|)
    requires Kept(known, more) && Kept(more, labels)
    requires forall n :: 0 < n <= |defs[i].pathSegments| ==> Join(defs[i].pathSegments[..n]) in more
    requires isNew <==> FullName(defs[i]) in created - created1
    requires isNew ==> FullName(defs[i]) in more && Unassigned(labels1, more[FullName(defs[i])])
    ensures FullName(defs[i]) in more
    ensures Progress(labels0, created0, recolored0, defs, i + 1, labels, created,
                     if isNew then recolored1 + {more[FullName(defs[i])]} else recolored1,
                     more, out[defs[i].nodeId := more[FullName(defs[i])]])
  {
    var def := defs[i];
    assert def.pathSegments[..|def.pathSegments|] == def.pathSegments;
    assert defs[..i + 1] == defs[..i] + [def];
    var recolored := if isNew then recolored1 + {more[FullName(def)]} else recolored1;
    AfterPath(labels0, created0, recolored0, defs, i, labels1, created1, recolored1, known, out, labels, created);
    ProvisionedGrows(defs[..i], def, known, more, out);
    LeafDone(defs[..i], def, labels1, created1 - created0, recolored1, labels, created - created0, recolored, isNew);
    if isNew { assert NewLabel(labels0, labels, created, more[FullName(def)]); }
  }

  class GmailClient {
    var labels: Labels
    var created: set<string>      // names this client created
    var recolored: set<string>    // ids whose color it set
    ghost var trouble: nat        // answers of the provider that failed or were out of date

    ghost predicate Valid()
      reads this
    {
      (forall name :: name in labels ==> labels[name] != "") && created <= labels.Keys
    }

    constructor (labels: Labels)
      requires forall name :: name in labels ==> labels[name] != ""
      ensures Valid() && this.labels == labels && created == {} && recolored == {}
    {
      this.labels, created, recolored := labels, {}, {};
    }

    /** Other clients may add labels before any request is served. */
    method OthersAct()
      requires Valid()
      modifies this`labels
      ensures Valid() && Kept(old(labels), labels)
    {
      var added: Labels := *;
      labels := (map name | name in added && added[name] != "" :: added[name]) + labels;
    }

    /** The list may lag behind and miss labels, and may fail. */
    method ListLabelIdsByName() returns (listed: Option<Labels>)
      requires Valid()
      modifies this`labels, this`trouble
      ensures trouble == old(trouble) + if listed == Some(labels) then 0 else 1
      ensures Valid() && Kept(old(labels), labels)
      ensures listed.Some? ==> Kept(listed.value, labels)
    {
      OthersAct();
      var missed: set<string>, fails: bool := *, *;
      listed := if fails then None else Some(labels - missed);
      trouble := trouble + if listed == Some(labels) then 0 else 1;
    }

    /** POST of a new label: 200 with its new id, 409 when the name is taken, or another failure. */
    method Post(name: string) returns (status: int, id: string)
      requires Valid()
      modifies this`labels, this`created, this`trouble
      ensures trouble == old(trouble) + if status == 200 || status == 409 then 0 else 1
      ensures Valid() && Kept(old(labels), labels)
      ensures status == 200 ==> name !in old(labels) && name in labels && id == labels[name] && created == old(created) + {name}
      ensures status == 200 ==> Unassigned(old(labels), id)
      ensures status == 409 ==> name in labels
      ensures status != 200 ==> created == old(created)
    {
      OthersAct();
      var fails: bool, newId: string := *, *;
      if fails || newId == "" || newId in labels.Values {
        trouble := trouble + 1;
        return 500, "";
      }
      if name in labels { return 409, ""; }
      assert forall other :: other in labels ==> labels[other] in labels.Values;
      labels := labels[name := newId];
      created := created + {name};
      return 200, newId;
    }

    /** One label by exact name: known, created now, or found again after a conflict. */
    method EnsureLabel(nameToId: Labels, name: string) returns (known: Option<Labels>, isNew: bool)
      requires Valid() && Kept(nameToId, labels)
      modifies this`labels, this`created, this`trouble
      ensures Valid() && Kept(old(labels), labels)
      // it throws only when the provider failed or its re-list was out of date
      ensures old(trouble) <= trouble && (known == None ==> old(trouble) < trouble)
      ensures known.Some? ==> Kept(nameToId, known.value) && Kept(known.value, labels) && name in known.value
      ensures created == if isNew then old(created) + {name} else old(created)
      ensures isNew ==> known.Some? && name !in old(labels) && Unassigned(old(labels), known.value[name])
    {
      isNew := false;
      if name in nameToId { return Some(nameToId), false; }
      var status, id := Post(name);
      if status == 409 {
        var refreshed := ListLabelIdsByName();
        if refreshed == None || name !in refreshed.value { return None, false; }
        return Some(nameToId[name := refreshed.value[name]]), false;
      }
      if status != 200 { return None, false; }
      return Some(nameToId[name := id]), true;
    }

    /** Every prefix of one path, ancestors first. */
    method EnsurePath(nameToId: Labels, path: seq<string>) returns (known: Option<Labels>, isNew: bool)
      requires Valid() && Kept(nameToId, labels) && path != []
      modifies this`labels, this`created, this`trouble
      ensures old(trouble) <= trouble && (known == None ==> old(trouble) < trouble)
      ensures Valid() && Kept(old(labels), labels)
      ensures known.Some? ==> Kept(nameToId, known.value) && Kept(known.value, labels)
      ensures known.Some? ==> forall n :: 0 < n <= |path| ==> Join(path[..n]) in known.value
      // it creates missing prefixes only, and reports whether the last one, the leaf, is its own
      ensures CreatedAlong(old(labels), old(created), created, path, |path|)
      ensures known.Some? ==> (isNew <==> Join(path) in created - old(created))
      ensures isNew ==> known.Some? && Join(path) in known.value && Unassigned(old(labels), known.value[Join(path)])
    {
      known, isNew := Some(nameToId), false;
      for i := 0 to |path|
        invariant Valid() && Kept(old(labels), labels) && old(trouble) <= trouble
        invariant known.Some? && Kept(nameToId, known.value) && Kept(known.value, labels)
        invariant forall n :: 0 < n <= i ==> Join(path[..n]) in known.value
        invariant CreatedAlong(old(labels), old(created), created, path, i)
        invariant isNew <==> 0 < i && Join(path[..i]) in created - old(created)
        invariant isNew ==> Unassigned(old(labels), known.value[Join(path[..i])])
      {
        ghost var created0 := created;
        known, isNew := EnsureLabel(known.value, Join(path[..i + 1]));
        AlongOneMore(old(labels), old(created), created0, created, path, i, isNew);
        if known == None { return None, false; }
      }
      assert path[..|path|] == path;
    }

    method EnsureFolderLabels(defs: seq<Def>) returns (result: Option<map<string, string>>)
      requires Valid()
      modifies this
      ensures Valid() && Kept(old(labels), labels) && old(created) <= created
      // it throws only when the provider failed or a list was out of date
      ensures old(trouble) <= trouble && (result == None ==> old(trouble) < trouble)
      ensures result.Some? ==> Provisioned(defs, labels, result.value)
      // every label it created as a leaf is colored
      ensures result.Some? ==> LeavesColored(defs, labels, created - old(created), recolored)
      // it only ever creates labels that were missing, and only prefixes
      ensures forall name :: name in created - old(created) ==> name !in old(labels) && IsPrefixOf(defs, name)
      // colors are set on labels of its own making only, whose ids no label had before
      ensures forall id :: id in recolored - old(recolored) ==> NewLabel(old(labels), labels, created, id)
      ensures old(recolored) <= recolored
    {
      var listed := ListLabelIdsByName();
      if listed == None { return None; }
      var nameToId := listed.value;
      var out: map<string, string> := map[];
      for i := 0 to |defs|
        invariant Valid() && old(trouble) <= trouble
        invariant Progress(old(labels), old(created), old(recolored), defs, i, labels, created, recolored, nameToId, out)
      {
        var def := defs[i];
        assert defs[..i + 1] == defs[..i] + [def];
        if def.pathSegments == [] {
          ProvisionedSkips(defs[..i], def, nameToId, out);
          SkippedLeaf(defs[..i], def, labels, created - old(created), recolored);
          MorePrefixes(defs, i);
          continue;
        }
        ghost var labels1, created1 := labels, created;
        var known, isNew := EnsurePath(nameToId, def.pathSegments);
        AfterPath(old(labels), old(created), old(recolored), defs, i, labels1, created1, recolored, nameToId, out, labels, created);
        if known == None { return None; }
        ProgressGrows(old(labels), old(created), old(recolored), defs, i, labels1, created1, recolored, nameToId, out,
                      labels, created, known.value, isNew);
        nameToId := known.value;
        out := out[def.nodeId := nameToId[FullName(def)]];
        if isNew { recolored := recolored + {nameToId[FullName(def)]}; }
      }
      assert defs[..|defs|] == defs;
      result := Some(out);
    }

    /** Run again, with everybody else still adding labels: nothing more is created or recolored. */
    method EnsureTwice(defs: seq<Def>)
      returns (first: Option<map<string, string>>, second: Option<map<string, string>>,
               createdByFirst: set<string>, recoloredByFirst: set<string>)
      requires Valid()
      modifies this
      ensures Valid() && Kept(old(labels), labels)
      ensures first.Some? ==> created == createdByFirst && recolored == recoloredByFirst
      ensures first.Some? && second.Some? ==> second == first
    {
      first := EnsureFolderLabels(defs);
      ghost var labels1 := labels;
      createdByFirst, recoloredByFirst := created, recolored;
      second := EnsureFolderLabels(defs);
      if first.Some? {
        assert forall name :: name in created - createdByFirst ==> IsPrefixOf(defs, name) && name !in labels1;
        assert forall name :: IsPrefixOf(defs, name) ==> name in labels1;
        assert created == createdByFirst;
        assert forall id :: !NewLabel(labels1, labels, created, id);
        assert forall id :: id in recolored ==> id in recoloredByFirst by {
          assert forall id :: id in recolored && id !in recoloredByFirst ==> id in recolored - recoloredByFirst;
        }
        assert recolored == recoloredByFirst;
        if second.Some? { SameResult(defs, labels1, labels, first.value, second.value); }
      }
    }
  }

  lemma ProvisionedSkips(defs: seq<Def>, def: Def, known: Labels, out: map<string, string>)
    requires Provisioned(defs, known, out) && def.pathSegments == []
    ensures Provisioned(defs + [def], known, out)
  {
    var all := defs + [def];
    forall k ensures Decides(all, k) <==> Decides(defs, k) {
      if Decides(defs, k) { assert all[k] == defs[k]; }
      if Decides(all, k) {
        assert all[k] == defs[k];
        forall j | k < j < |defs| && defs[j].nodeId == defs[k].nodeId ensures defs[j].pathSegments == [] { assert all[j] == defs[j]; }
      }
    }
    forall node | node in out ensures exists k :: Decides(all, k) && all[k].nodeId == node {
      var k :| Decides(defs, k) && defs[k].nodeId == node;
      assert Decides(all, k) && all[k] == defs[k];
    }
  }

  lemma ProvisionedGrows(defs: seq<Def>, def: Def, known: Labels, more: Labels, out: map<string, string>)
    requires Provisioned(defs, known, out) && Kept(known, more) && def.pathSegments != []
    requires forall n :: 0 < n <= |def.pathSegments| ==> Join(def.pathSegments[..n]) in more
    requires FullName(def) in more
    ensures Provisioned(defs + [def], more, out[def.nodeId := more[FullName(def)]])
  {
    var all := defs + [def];
    var out' := out[def.nodeId := more[FullName(def)]];
    assert Decides(all, |defs|);
    forall k | Decides(all, k)
      ensures all[k].nodeId in out' && FullName(all[k]) in more && out'[all[k].nodeId] == more[FullName(all[k])]
    {
      if k < |defs| {
        assert all[|defs|] == def;
        assert all[k].nodeId != def.nodeId;
        forall j | k < j < |defs| && defs[j].nodeId == defs[k].nodeId ensures defs[j].pathSegments == [] { assert all[j] == defs[j]; }
        assert Decides(defs, k);
      }
    }
    forall node | node in out' ensures exists k :: Decides(all, k) && all[k].nodeId == node {
      if node == def.nodeId {
        assert all[|defs|].nodeId == node;
      } else {
        var k :| Decides(defs, k) && defs[k].nodeId == node;
        assert all[k] == defs[k] && Decides(all, k);
      }
    }
  }

  lemma SameResult(defs: seq<Def>, labels: Labels, later: Labels, first: map<string, string>, second: map<string, string>)
    requires Kept(labels, later) && Provisioned(defs, labels, first) && Provisioned(defs, later, second)
    ensures first == second
  {
    forall node ensures node in first <==> node in second {
    }
    forall node | node in first ensures second[node] == first[node] {
      var k :| Decides(defs, k) && defs[k].nodeId == node;
    }
  }

  // ------------------------------------------------------------- thread reconcile

  /** The union of the label ids of a thread's messages. */
  function Union(messages: seq<set<string>>): (u: set<string>)
    ensures forall id :: id in u <==> exists i :: 0 <= i < |messages| && id in messages[i]
  {
    if messages == [] then {} else messages[0] + Union(messages[1..])
  }

  function AsSet(ids: seq<string>): set<string> { set id | id in ids }

  /** Some message of the thread carries the label. */
  predicate Carries(messages: seq<set<string>>, id: string) {
    exists i :: 0 <= i < |messages| && id in messages[i]
  }

  /** `threads.modify`: on every message of the thread. */
  function Modify(messages: seq<set<string>>, add: set<string>, remove: set<string>): seq<set<string>> {
    if messages == [] then [] else [messages[0] + add - remove] + Modify(messages[1..], add, remove)
  }

  function ToAdd(current: set<string>, desired: set<string>): set<string> { desired - current }

  function ToRemove(current: set<string>, desired: set<string>, managed: set<string>): set<string> {
    current * managed - desired
  }

  predicate Converged(current: set<string>, desired: set<string>, managed: set<string>) {
    ToAdd(current, desired) == {} && ToRemove(current, desired, managed) == {}
  }

  /** A thread after a successful reconcile. */
  function Reconciled(messages: seq<set<string>>, desired: set<string>, managed: set<string>): seq<set<string>> {
    var current := Union(messages);
    if Converged(current, desired, managed) then messages
    else Modify(messages, ToAdd(current, desired), ToRemove(current, desired, managed))
  }

  datatype Status = Applied | ThreadNotFound | InvalidLabel | Failed

  class ThreadLabels {
    var threads: map<string, seq<set<string>>>
    var writes: nat

    constructor (threads: map<string, seq<set<string>>>)
      ensures this.threads == threads && writes == 0
    {
      this.threads, writes := threads, 0;
    }

    /** `fetches` is false when the thread fetch fails; `modified` is how the provider would answer the modify request. */
    method ApplyThreadFolderLabels(threadId: string, desiredLabelIds: seq<string>, managedLabelIds: seq<string>,
                                   fetches: bool, modified: Status)
      returns (status: Status)
      modifies this
      ensures !fetches && threadId in old(threads) ==> status == Failed && threads == old(threads) && writes == old(writes)
      ensures threadId !in old(threads) ==> status == ThreadNotFound && threads == old(threads) && writes == old(writes)
      // nothing to do is a success; otherwise the provider's answer to the one request decides
      ensures fetches && threadId in old(threads) ==>
        if Converged(Union(old(threads)[threadId]), AsSet(desiredLabelIds), AsSet(managedLabelIds))
        then status == Applied && threads == old(threads) && writes == old(writes)
        else status == modified && writes == old(writes) + 1
      ensures status.Applied? && threadId in old(threads) ==>
        threads == old(threads)[threadId := Reconciled(old(threads)[threadId], AsSet(desiredLabelIds), AsSet(managedLabelIds))]
      // an applied reconcile of a thread with messages leaves the desired labels on it and no other managed one
      ensures status.Applied? && threadId in old(threads) && old(threads)[threadId] != [] ==>
        && threadId in threads && |threads[threadId]| == |old(threads)[threadId]|
        && (forall id :: id in desiredLabelIds ==> Carries(threads[threadId], id))
        && (forall id :: id in managedLabelIds && id !in desiredLabelIds ==> !Carries(threads[threadId], id))
        && (forall i, id :: 0 <= i < |threads[threadId]| && id !in managedLabelIds && id !in desiredLabelIds ==>
              (id in threads[threadId][i] <==> id in old(threads)[threadId][i]))
      ensures !status.Applied? ==> threads == old(threads)
      ensures fetches && threadId in old(threads) ==>
        (writes == old(writes) <==> Converged(Union(old(threads)[threadId]), AsSet(desiredLabelIds), AsSet(managedLabelIds)))
      ensures writes <= old(writes) + 1
    {
      if threadId !in threads { return ThreadNotFound; }
      if !fetches { return Failed; }
      ghost var before := threads[threadId];
      var current := Union(threads[threadId]);
      var desired, managed := AsSet(desiredLabelIds), AsSet(managedLabelIds);
      var toAdd := AsSet(Filter(desiredLabelIds, current));
      var toRemove := set id | id in current && id in managed && id !in desired;
      assert toAdd == ToAdd(current, desired) && toRemove == ToRemove(current, desired, managed);
      if before != [] { ReconciledCarries(before, desiredLabelIds, managedLabelIds); }
      if toAdd == {} && toRemove == {} {
        assert threads == threads[threadId := threads[threadId]];
        return Applied;
      }
      writes := writes + 1;
      if modified.Applied? { threads := threads[threadId := Modify(threads[threadId], toAdd, toRemove)]; }
      status := modified;
    }
  }

  /** The ids of the list that are not current. */
  function Filter(ids: seq<string>, current: set<string>): (r: seq<string>)
    ensures forall id :: id in r <==> id in ids && id !in current
  {
    if ids == [] then [] else (if ids[0] in current then [] else [ids[0]]) + Filter(ids[1..], current)
  }

  lemma {:induction false} ModifiedUnion(messages: seq<set<string>>, add: set<string>, remove: set<string>)
    ensures |Modify(messages, add, remove)| == |messages|
    ensures forall i :: 0 <= i < |messages| ==> Modify(messages, add, remove)[i] == messages[i] + add - remove
    ensures Union(Modify(messages, add, remove)) == if messages == [] then {} else Union(messages) + add - remove
  {
    if messages != [] { ModifiedUnion(messages[1..], add, remove); }
  }

  /**
   After a reconcile of a thread that has messages, the desired labels are on it
   and no other managed one is, every label that is neither is untouched on
   every message, and another reconcile finds nothing to write.
   */
  lemma ReconcileConverges(messages: seq<set<string>>, desired: set<string>, managed: set<string>)
    requires messages != []
    ensures
      var after := Reconciled(messages, desired, managed);
      && |after| == |messages|
      && desired <= Union(after) && Union(after) * managed == desired * managed
      && (forall i :: 0 <= i < |messages| ==> after[i] - managed - desired == messages[i] - managed - desired)
      && Converged(Union(after), desired, managed)
  {
    var current := Union(messages);
    var add, remove := ToAdd(current, desired), ToRemove(current, desired, managed);
    ModifiedUnion(messages, add, remove);
  }

  /** The same, label by label. */
  lemma ReconciledCarries(messages: seq<set<string>>, desired: seq<string>, managed: seq<string>)
    requires messages != []
    ensures
      var after := Reconciled(messages, AsSet(desired), AsSet(managed));
      && |after| == |messages|
      && (forall id :: id in desired ==> Carries(after, id))
      && (forall id :: id in managed && id !in desired ==> !Carries(after, id))
      && (forall i, id :: 0 <= i < |after| && id !in managed && id !in desired ==> (id in after[i] <==> id in messages[i]))
  {
    var d, m := AsSet(desired), AsSet(managed);
    var after := Reconciled(messages, d, m);
    ReconcileConverges(messages, d, m);
    forall id | id in desired ensures Carries(after, id) { assert id in d && id in Union(after); }
    forall id | id in managed && id !in desired ensures !Carries(after, id) {
      assert id in Union(after) ==> id in Union(after) * m;
    }
    forall i, id | 0 <= i < |after| && id !in managed && id !in desired ensures id in after[i] <==> id in messages[i] {
      assert id in after[i] <==> id in after[i] - m - d;
      assert id in messages[i] <==> id in messages[i] - m - d;
    }
  }

  /** Without messages there is nothing to label: every call writes again unless nothing is desired. */
  lemma EmptyThreadConvergesOnlyOnNothing(desired: set<string>, managed: set<string>)
    ensures Converged(Union(Reconciled([], desired, managed)), desired, managed) <==> desired == {}
  {
    assert ToAdd({}, desired) == desired && ToRemove({}, desired, managed) == {};
  }

  // ------------------------------------------------------------- history records

  /** An absent thread is empty; absent labels are `None`. */
  datatype HistoryEntry = HistoryEntry(threadId: string, labelIds: Option<set<string>>)

  datatype HistoryRecord = HistoryRecord(messagesAdded: seq<HistoryEntry>, labelsAdded: seq<HistoryEntry>, labelsRemoved: seq<HistoryEntry>)

  predicate Outbound(e: HistoryEntry) {
    e.labelIds.Some? && "SENT" in e.labelIds.value && "INBOX" !in e.labelIds.value
  }

  predicate Mentions(r: HistoryRecord, t: string) {
    exists e :: e in r.messagesAdded + r.labelsAdded + r.labelsRemoved && e.threadId == t
  }

  /** Something in the record says the thread is not just the user's own outbound mail. */
  predicate Disqualifies(r: HistoryRecord, t: string) {
    || (exists e :: e in r.messagesAdded && e.threadId == t && !Outbound(e))
    || (exists e :: e in r.labelsAdded + r.labelsRemoved && e.threadId == t)
  }

  /** The record changes the thread's labels, or adds a message to it that is not known to be purely outbound. */
  ghost predicate MovesOtherwise(r: HistoryRecord, t: string) {
    || (exists e :: (e in r.labelsAdded || e in r.labelsRemoved) && e.threadId == t)
    || (exists e :: e in r.messagesAdded && e.threadId == t
                    && !(e.labelIds.Some? && "SENT" in e.labelIds.value && "INBOX" !in e.labelIds.value))
  }

  lemma DisqualifiesIff(r: HistoryRecord, t: string)
    ensures Disqualifies(r, t) <==> MovesOtherwise(r, t)
  {
    assert forall e :: e in r.labelsAdded + r.labelsRemoved <==> e in r.labelsAdded || e in r.labelsRemoved;
  }

  /** One record, folded into what is known so far. */
  method FoldRecord(r: HistoryRecord, seen0: set<string>, not0: set<string>) returns (seen: set<string>, notCandidate: set<string>)
    ensures forall t :: t in seen <==> t in seen0 || (t != "" && Mentions(r, t))
    ensures forall t :: t in notCandidate <==> t in not0 || (t != "" && Disqualifies(r, t))
  {
    seen, notCandidate := seen0, not0;
    for i := 0 to |r.messagesAdded|
      invariant forall t :: t in seen <==> t in seen0 || (t != "" && exists e :: e in r.messagesAdded[..i] && e.threadId == t)
      invariant forall t :: t in notCandidate <==> t in not0 || (t != "" && exists e :: e in r.messagesAdded[..i] && e.threadId == t && !Outbound(e))
    {
      var e := r.messagesAdded[i];
      assert r.messagesAdded[..i + 1] == r.messagesAdded[..i] + [e];
      if e.threadId == "" { continue; }
      seen := seen + {e.threadId};
      if !Outbound(e) { notCandidate := notCandidate + {e.threadId}; }
    }
    assert r.messagesAdded[..|r.messagesAdded|] == r.messagesAdded;
    var changes := r.labelsAdded + r.labelsRemoved;
    ghost var seen1, not1 := seen, notCandidate;
    for i := 0 to |changes|
      invariant forall t :: t in seen <==> t in seen1 || (t != "" && exists e :: e in changes[..i] && e.threadId == t)
      invariant forall t :: t in notCandidate <==> t in not1 || (t != "" && exists e :: e in changes[..i] && e.threadId == t)
    {
      var e := changes[i];
      assert changes[..i + 1] == changes[..i] + [e];
      if e.threadId == "" { continue; }
      seen := seen + {e.threadId};
      notCandidate := notCandidate + {e.threadId};
    }
    assert changes[..|changes|] == changes;
  }

  /** A changed thread is a sent-only candidate exactly when all its entries, on every page, are outbound additions. */
  method FoldHistory(history: seq<HistoryRecord>) returns (changed: set<string>, sentOnly: set<string>)
    ensures forall t :: t in changed <==> t != "" && exists r :: r in history && Mentions(r, t)
    ensures forall t :: t in sentOnly <==> t in changed && forall r :: r in history ==> !Disqualifies(r, t)
    // spelled out: only added messages name it, and each is known to be sent and not in the inbox
    ensures forall t, r :: t in sentOnly && r in history ==>
              && (forall e :: e in r.labelsAdded || e in r.labelsRemoved ==> e.threadId != t)
              && (forall e :: e in r.messagesAdded && e.threadId == t ==>
                    e.labelIds.Some? && "SENT" in e.labelIds.value && "INBOX" !in e.labelIds.value)
    ensures forall t :: t in changed && t !in sentOnly ==> exists r :: r in history && MovesOtherwise(r, t)
  {
    changed := {};
    var notCandidate: set<string> := {};
    for i := 0 to |history|
      invariant forall t :: t in changed <==> t != "" && exists r :: r in history[..i] && Mentions(r, t)
      invariant forall t :: t in notCandidate <==> t != "" && exists r :: r in history[..i] && Disqualifies(r, t)
    {
      assert history[..i + 1] == history[..i] + [history[i]];
      changed, notCandidate := FoldRecord(history[i], changed, notCandidate);
    }
    assert history[..|history|] == history;
    sentOnly := changed - notCandidate;
    forall r, t ensures Disqualifies(r, t) <==> MovesOtherwise(r, t) { DisqualifiesIff(r, t); }
  }
}
