/**
 The usage meters and the ledger of one-time tokens, and the exactly-once law
 that ties them: what a meter shows is what its distinct units of work add up to.
 */
module UsageMeter {
  import opened Prelude

  datatype MeterKind = BACKFILL | THREAD_SORT | DRAFT | TAXONOMY

  datatype MeterKey = MeterKey(inbox: string, kind: MeterKind, windowStart: int)

  datatype Meter = Meter(used: int, graceUsed: bool, graceClaimedAt: Option<int>)

  type Meters = map<MeterKey, Meter>

  /** Each one-time token with the time it was claimed. */
  type Markers = map<string, int>

  datatype Ledger = Ledger(meters: Meters, markers: Markers)

  datatype Usage = Usage(key: MeterKey, delta: int, dedupToken: Option<string>)

  const IDEMPOTENCY_MARKER_RETENTION_MS := 90 * 24 * 60 * 60 * 1000

  function Used(meters: Meters, key: MeterKey): int {
    if key in meters then meters[key].used else 0
  }

  /** Add to a meter, creating its row on first use. */
  function AddTo(meters: Meters, key: MeterKey, delta: int): Meters {
    meters[key := if key in meters then meters[key].(used := meters[key].used + delta) else Meter(delta, false, None)]
  }

  /** An absent or empty token is no token. */
  predicate Tokened(u: Usage) { u.dedupToken.Some? && u.dedupToken.value != "" }

  function Record(l: Ledger, u: Usage, now: int): Ledger {
    if u.delta <= 0 || (Tokened(u) && u.dedupToken.value in l.markers) then l
    else Ledger(AddTo(l.meters, u.key, u.delta),
                if Tokened(u) then l.markers[u.dedupToken.value := now] else l.markers)
  }

  function Prune(markers: Markers, now: int): Markers {
    map t | t in markers && !(markers[t] < now - IDEMPOTENCY_MARKER_RETENTION_MS) :: markers[t]
  }

  class MeterStore {
    var meters: Meters
    var markers: Markers

    constructor ()
      ensures meters == map[] && markers == map[]
    {
      meters, markers := map[], map[];
    }

    method GetMeterUsed(key: MeterKey) returns (used: int)
      ensures used == Used(meters, key)
    {
      used := if key in meters then meters[key].used else 0;
    }

    /** True for the first caller to present the token, false for every replay. */
    method ClaimIdempotencyToken(token: string, now: int) returns (won: bool)
      modifies this`markers
      ensures won <==> token !in old(markers)
      ensures markers == if won then old(markers)[token := now] else old(markers)
      ensures Ledger(meters, markers) == Apply(old(Ledger(meters, markers)), ClaimOnly(token, now))
    {
      won := token !in markers;
      if won { markers := markers[token := now]; }
    }

    method ReleaseIdempotencyToken(token: string, now: int)
      modifies this`markers
      ensures markers == old(markers) - {token}
      ensures Ledger(meters, markers) == Apply(old(Ledger(meters, markers)), ReleaseToken(token, now))
    {
      markers := markers - {token};
    }

    method PruneIdempotencyMarkers(now: int) returns (count: nat)
      modifies this`markers
      ensures markers == Prune(old(markers), now)
      ensures forall t :: t in old(markers) ==>
                (t in markers <==> now - old(markers)[t] <= 90 * 24 * 60 * 60 * 1000)
      ensures forall t :: t in markers ==> t in old(markers) && markers[t] == old(markers)[t]
      ensures Ledger(meters, markers) == Apply(old(Ledger(meters, markers)), PruneAt(now))
      ensures count == |old(markers)| - |markers|
    {
      var kept := Prune(markers, now);
      assert markers.Keys == kept.Keys + (markers.Keys - kept.Keys);
      count := |markers.Keys - kept.Keys|;
      markers := kept;
    }

    method RecordMeterUsage(u: Usage, now: int)
      modifies this
      ensures Ledger(meters, markers) == Apply(old(Ledger(meters, markers)), Use(u, now))
      // counted once: a token seen before adds nothing, a new one adds delta and is remembered
      ensures Used(meters, u.key) - old(Used(meters, u.key)) ==
        if u.delta > 0 && (u.dedupToken == None || u.dedupToken == Some("") || u.dedupToken.value !in old(markers))
        then u.delta else 0
      ensures markers ==
        if u.delta > 0 && u.dedupToken.Some? && u.dedupToken != Some("") && u.dedupToken.value !in old(markers)
        then old(markers)[u.dedupToken.value := now] else old(markers)
      // the grace columns are never touched
      ensures forall k :: k in old(meters) ==>
        k in meters && meters[k] == old(meters)[k].(used := meters[k].used)
      ensures forall k :: k != u.key ==> Used(meters, k) == old(Used(meters, k))
    {
      if u.delta <= 0 { return; }
      if Tokened(u) {
        var won := ClaimIdempotencyToken(u.dedupToken.value, now);
        if !won { return; }
      }
      meters := AddTo(meters, u.key, u.delta);
    }
  }

  // ------------------------------------------------- histories of the ledger

  datatype Action =
    | Use(usage: Usage, at: int)
    | ClaimOnly(token: string, at: int)       // a token that gates something other than a meter
    | ReleaseToken(token: string, at: int)
    | PruneAt(at: int)
    | Grace(key: MeterKey, at: int)           // a grace claim touches the row, not its count

  /** A transaction: its actions take effect together or, when it aborts, not at all. */
  datatype Tx = Tx(actions: seq<Action>, commits: bool)

  function Apply(l: Ledger, a: Action): Ledger {
    match a
    case Use(u, at) => Record(l, u, at)
    case ClaimOnly(t, at) => if t in l.markers then l else l.(markers := l.markers[t := at])
    case ReleaseToken(t, _) => l.(markers := l.markers - {t})
    case PruneAt(at) => l.(markers := Prune(l.markers, at))
    case Grace(k, at) =>
      if k in l.meters then l.(meters := l.meters[k := l.meters[k].(graceUsed := true, graceClaimedAt := Some(at))]) else l
  }

  const EMPTY := Ledger(map[], map[])

  function Play(h: seq<Action>): Ledger {
    if h == [] then EMPTY else Apply(Play(h[..|h| - 1]), h[|h| - 1])
  }

  /** What the interleaved, partly aborting transactions come to, in commit order. */
  function Committed(txs: seq<Tx>): seq<Action> {
    if txs == [] then []
    else
      var last := txs[|txs| - 1];
      Committed(txs[..|txs| - 1]) + if last.commits then last.actions else []
  }

  function Execute(l: Ledger, actions: seq<Action>): Ledger
    decreases |actions|
  {
    if actions == [] then l else Execute(Apply(l, actions[0]), actions[1..])
  }

  function ExecuteTxs(txs: seq<Tx>): Ledger {
    if txs == [] then EMPTY
    else
      var l := ExecuteTxs(txs[..|txs| - 1]);
      if txs[|txs| - 1].commits then Execute(l, txs[|txs| - 1].actions) else l
  }

  /** Tokens an action presents for claiming. */
  function Presents(a: Action): set<string> {
    match a
    case Use(u, _) => if u.delta > 0 && Tokened(u) then {u.dedupToken.value} else {}
    case ClaimOnly(t, _) => {t}
    case _ => {}
  }

  function Seen(h: seq<Action>): set<string> {
    if h == [] then {} else Seen(h[..|h| - 1]) + Presents(h[|h| - 1])
  }

  /** The last action of the history is a unit of work for `key` of size `delta`. */
  function UnitFor(a: Action, key: MeterKey): int {
    if a.Use? && a.usage.key == key && a.usage.delta > 0 then a.usage.delta else 0
  }

  /** The sum of deltas of the distinct tokens first claimed for the meter, plus the untokened units. */
  function DistinctUnits(h: seq<Action>, key: MeterKey): int {
    if h == [] then 0
    else
      var past, a := h[..|h| - 1], h[|h| - 1];
      DistinctUnits(past, key) + if Presents(a) !! Seen(past) then UnitFor(a, key) else 0
  }

  /** The sum of deltas presented again after their marker was gone. */
  function Recounted(h: seq<Action>, key: MeterKey): int {
    if h == [] then 0
    else
      var past, a := h[..|h| - 1], h[|h| - 1];
      Recounted(past, key) + if Forgotten(past, a) then UnitFor(a, key) else 0
  }

  /** The unit presents a token that was claimed before and whose marker no longer exists. */
  predicate Forgotten(past: seq<Action>, a: Action) {
    a.Use? && Presents(a) != {} && Presents(a) <= Seen(past) && Presents(a) !! Play(past).markers.Keys
  }

  lemma {:induction false} MarkersWereSeen(h: seq<Action>)
    ensures Play(h).markers.Keys <= Seen(h)
  {
    if h != [] { MarkersWereSeen(h[..|h| - 1]); }
  }

  /** Every history: a meter shows its distinct units plus whatever was counted again. */
  lemma {:induction false} Conservation(h: seq<Action>, key: MeterKey)
    ensures Used(Play(h).meters, key) == DistinctUnits(h, key) + Recounted(h, key)
    ensures Recounted(h, key) >= 0
  {
    if h != [] {
      var past, a := h[..|h| - 1], h[|h| - 1];
      Conservation(past, key);
      MarkersWereSeen(past);
    }
  }

  /** No unit is ever presented after its marker was pruned or released. */
  ghost predicate NoneForgotten(h: seq<Action>) {
    forall i :: 0 <= i < |h| ==> !Forgotten(h[..i], h[i])
  }

  lemma {:induction false} NothingRecounted(h: seq<Action>, key: MeterKey)
    requires NoneForgotten(h)
    ensures Recounted(h, key) == 0
  {
    if h != [] {
      var past := h[..|h| - 1];
      assert forall i :: 0 <= i < |past| ==> past[..i] == h[..i];
      NothingRecounted(past, key);
    }
  }

  lemma {:induction false} RecountedGrows(h: seq<Action>, i: nat, key: MeterKey)
    requires i <= |h|
    ensures Recounted(h[..i], key) <= Recounted(h, key)
  {
    if i < |h| {
      var past := h[..|h| - 1];
      assert past[..i] == h[..i];
      RecountedGrows(past, i, key);
    } else {
      assert h[..i] == h;
    }
  }

  /** Exactly-once counting holds on every meter exactly when no forgotten unit is presented again. */
  lemma ExactlyOnce(h: seq<Action>)
    ensures (forall key :: Used(Play(h).meters, key) == DistinctUnits(h, key)) <==> NoneForgotten(h)
  {
    forall key ensures Used(Play(h).meters, key) == DistinctUnits(h, key) + Recounted(h, key) {
      Conservation(h, key);
    }
    if NoneForgotten(h) {
      forall key ensures Recounted(h, key) == 0 { NothingRecounted(h, key); }
    } else {
      var i :| 0 <= i < |h| && Forgotten(h[..i], h[i]);
      var key := h[i].usage.key;
      assert h[..i + 1][..i] == h[..i];
      Conservation(h[..i], key);
      RecountedGrows(h, i + 1, key);
      assert Used(Play(h).meters, key) != DistinctUnits(h, key);
    }
  }

  // --------------------------------------------------------- transactions

  lemma {:induction false} ExecuteExtends(h: seq<Action>, actions: seq<Action>)
    ensures Play(h + actions) == Execute(Play(h), actions)
    decreases |actions|
  {
    if actions == [] {
      assert h + actions == h;
    } else {
      assert (h + [actions[0]])[..|h|] == h;
      assert h + actions == (h + [actions[0]]) + actions[1..];
      ExecuteExtends(h + [actions[0]], actions[1..]);
    }
  }

  /** Retries, duplicates and aborted transactions: only what commits enters the history. */
  lemma {:induction false} AbortsLeaveNoTrace(txs: seq<Tx>)
    ensures ExecuteTxs(txs) == Play(Committed(txs))
  {
    if txs != [] {
      var before := txs[..|txs| - 1];
      AbortsLeaveNoTrace(before);
      if txs[|txs| - 1].commits { ExecuteExtends(Committed(before), txs[|txs| - 1].actions); }
      else { assert Committed(before) + [] == Committed(before); }
    }
  }

  // ---------------------------------------------- when markers are kept long enough

  function TimeOf(a: Action): int {
    match a
    case Use(_, at) => at
    case ClaimOnly(_, at) => at
    case ReleaseToken(_, at) => at
    case PruneAt(at) => at
    case Grace(_, at) => at
  }

  /** A history in clock order in which no token is released. */
  ghost predicate Orderly(h: seq<Action>) {
    && (forall i, j :: 0 <= i < j < |h| ==> TimeOf(h[i]) <= TimeOf(h[j]))
    && (forall i :: 0 <= i < |h| ==> !h[i].ReleaseToken?)
  }

  /** Every presentation of a token comes within the retention time of every earlier one. */
  ghost predicate Prompt(h: seq<Action>) {
    forall i, j :: 0 <= i < j < |h| && Presents(h[i]) * Presents(h[j]) != {} ==>
      TimeOf(h[j]) - TimeOf(h[i]) <= IDEMPOTENCY_MARKER_RETENTION_MS
  }

  /** A token seen less than the retention time ago still has its marker. */
  lemma {:induction false} MarkerOutlivesReplays(h: seq<Action>, token: string, now: int)
    requires Orderly(h) && token in Seen(h)
    requires forall i :: 0 <= i < |h| ==> TimeOf(h[i]) <= now
    requires forall i :: 0 <= i < |h| && token in Presents(h[i]) ==> now - TimeOf(h[i]) <= IDEMPOTENCY_MARKER_RETENTION_MS
    ensures token in Play(h).markers
    ensures now - Play(h).markers[token] <= IDEMPOTENCY_MARKER_RETENTION_MS
  {
    var past, a := h[..|h| - 1], h[|h| - 1];
    assert forall i :: 0 <= i < |past| ==> past[i] == h[i];
    MarkersWereSeen(past);
    if token in Seen(past) { MarkerOutlivesReplays(past, token, now); }
  }

  /** Replays that come within the retention time never count twice, whenever the sweep runs. */
  lemma PromptReplaysCountOnce(h: seq<Action>, key: MeterKey)
    requires Orderly(h) && Prompt(h)
    ensures Used(Play(h).meters, key) == DistinctUnits(h, key)
  {
    forall i | 0 <= i < |h| ensures !Forgotten(h[..i], h[i]) {
      var past := h[..i];
      if h[i].Use? && Presents(h[i]) != {} && Presents(h[i]) <= Seen(past) {
        var token :| token in Presents(h[i]);
        forall j | 0 <= j < |past| && token in Presents(past[j])
          ensures TimeOf(h[i]) - TimeOf(past[j]) <= IDEMPOTENCY_MARKER_RETENTION_MS
        {
          assert token in Presents(h[j]) * Presents(h[i]);
        }
        MarkerOutlivesReplays(past, token, TimeOf(h[i]));
      }
    }
    ExactlyOnce(h);
  }
}
