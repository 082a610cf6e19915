/**
 The body-free sender and subject signal of an inbox: two passes over sampled
 messages into count maps, ranked into short lists. Whatever order the sample
 comes in, the signal is the same.
 */
module InboxProfile {
  import opened Prelude

  const TOP_TERMS := 60
  const MIN_KEYWORD_COUNT := 2
  const CLUSTER_DOMAIN_LIMIT := 12
  const CLUSTER_KEYWORD_LIMIT := 8
  const NOREPLY_DOMAIN_SHARE: real := 0.8

  datatype Message = Message(senderEmail: string, senderName: Option<string>, subject: Option<string>)

  /** String operations of the host and the no-reply classifier; any will do. */
  datatype Rules = Rules(
    lower: string -> string,
    trim: string -> string,
    tokens: string -> seq<string>,
    noReply: string -> bool,
    before: (string, string) -> bool)

  /** The tie-break on terms is a strict total order. */
  ghost predicate StrictTotal(r: Rules) {
    && (forall a :: !r.before(a, a))
    && (forall a, b :: a != b ==> r.before(a, b) || r.before(b, a))
    && (forall a, b, c :: r.before(a, b) && r.before(b, c) ==> r.before(a, c))
  }

  datatype Term = Term(term: string, count: int)
  datatype Cluster = Cluster(domain: string, count: int, keywords: seq<Term>)
  datatype Signal = Signal(senderDomains: seq<Term>, senderNames: seq<Term>, subjectKeywords: seq<Term>, senderClusters: seq<Cluster>)

  // ------------------------------------------------------------ what one message says

  function LastIndexOf(s: string, c: char): (i: int)
    ensures -1 <= i < |s| && (i >= 0 ==> s[i] == c)
    ensures forall k :: i < k < |s| ==> s[k] != c
  {
    if s == [] then -1 else if s[|s| - 1] == c then |s| - 1 else LastIndexOf(s[..|s| - 1], c)
  }

  /** The sender's domain; an absent or empty one is none. */
  function Domain(r: Rules, m: Message): Option<string> {
    var at := LastIndexOf(m.senderEmail, '@');
    if at == -1 || at == |m.senderEmail| - 1 then None
    else
      var d := r.lower(m.senderEmail[at + 1..]);
      if d == "" then None else Some(d)
  }

  function Name(r: Rules, m: Message): Option<string> {
    if m.senderName == None || r.trim(m.senderName.value) == "" then None else Some(r.trim(m.senderName.value))
  }

  function Tokens(r: Rules, m: Message): seq<string> {
    if m.subject == None || m.subject.value == "" then [] else r.tokens(m.subject.value)
  }

  function AsMultiset(x: Option<string>): multiset<string> {
    match x case Some(v) => multiset{v} case None => multiset{}
  }

  /** The tallies the two passes keep; those of the second pass skip noise domains. */
  datatype Tally =
    | Total | NoReply
    | Domains(noise: set<string>) | Names(noise: set<string>) | Keywords(noise: set<string>)
    | KeywordsFrom(noise: set<string>, domain: string)

  predicate Skips(r: Rules, noise: set<string>, m: Message) {
    Domain(r, m).Some? && Domain(r, m).value in noise
  }

  function Adds(r: Rules, t: Tally, m: Message): multiset<string> {
    match t
    case Total => AsMultiset(Domain(r, m))
    case NoReply => if r.noReply(m.senderEmail) then AsMultiset(Domain(r, m)) else multiset{}
    case Domains(noise) => if Skips(r, noise, m) then multiset{} else AsMultiset(Domain(r, m))
    case Names(noise) => if Skips(r, noise, m) then multiset{} else AsMultiset(Name(r, m))
    case Keywords(noise) => if Skips(r, noise, m) then multiset{} else multiset(Tokens(r, m))
    case KeywordsFrom(noise, d) =>
      if Skips(r, noise, m) || Domain(r, m) != Some(d) then multiset{} else multiset(Tokens(r, m))
  }

  ghost function Sum(f: Message -> multiset<string>, ms: seq<Message>): multiset<string> {
    if ms == [] then multiset{} else Sum(f, ms[..|ms| - 1]) + f(ms[|ms| - 1])
  }

  ghost function AddsOf(r: Rules, t: Tally): Message -> multiset<string> { m => Adds(r, t, m) }

  /** A tally over the whole sample, as a multiset of terms. */
  ghost function Gather(r: Rules, t: Tally, ms: seq<Message>): multiset<string> { Sum(AddsOf(r, t), ms) }

  predicate IsNoise(noReply: nat, total: nat) {
    total > 0 && noReply as real / total as real >= NOREPLY_DOMAIN_SHARE
  }

  lemma Grows(q: real, p: real, t: real)
    requires t > 0.0
    ensures q >= p <==> q * t >= p * t
  {
    assert (q - p) * t == q * t - p * t;
    if q >= p { assert (q - p) * t >= 0.0; } else { assert (p - q) * t > 0.0; }
  }

  lemma Fifths(n: nat, t: nat)
    ensures n as real >= 0.8 * (t as real) <==> 5 * n >= 4 * t
  {
    assert 5.0 * (n as real) == (5 * n) as real && 4.0 * (t as real) == (4 * t) as real;
  }

  lemma Quotient(n: real, t: real)
    requires t > 0.0
    ensures n / t * t == n
  {
  }

  lemma FourInFive(noReply: nat, total: nat)
    requires total > 0
    ensures IsNoise(noReply, total) <==> 5 * noReply >= 4 * total
  {
    Quotient(noReply as real, total as real);
    Grows(noReply as real / total as real, 0.8, total as real);
    Fifths(noReply, total);
  }

  ghost function NoiseDomains(r: Rules, ms: seq<Message>): set<string> {
    set d | d in Gather(r, Total, ms) && IsNoise(Gather(r, NoReply, ms)[d], Gather(r, Total, ms)[d])
  }

  // ---------------------------------------------------------------------- ranking

  predicate RankLess(r: Rules, a: Term, b: Term) {
    a.count > b.count || (a.count == b.count && r.before(a.term, b.term))
  }

  ghost predicate SortedTerms(r: Rules, out: seq<Term>) {
    forall i, j :: 0 <= i < j < |out| ==> RankLess(r, out[i], out[j])
  }

  predicate Eligible(counts: multiset<string>, minCount: nat, t: Term) {
    t.term in counts && t.count == counts[t.term] && t.count >= minCount
  }

  /** The list is the sorted prefix: eligible terms only, in order, and nothing better left out. */
  ghost predicate IsRank(r: Rules, counts: multiset<string>, limit: nat, minCount: nat, out: seq<Term>) {
    && SortedTerms(r, out) && |out| <= limit
    && (forall t :: t in out ==> Eligible(counts, minCount, t))
    && (forall t :: Eligible(counts, minCount, t) ==>
          t in out || (|out| == limit && forall u :: u in out ==> RankLess(r, u, t)))
  }

  lemma RankLessIsAsymmetric(r: Rules, a: Term, b: Term)
    requires StrictTotal(r) && (a == b || RankLess(r, a, b))
    ensures !RankLess(r, b, a)
  {
  }

  lemma NoTermBeatsRank(r: Rules, counts: multiset<string>, limit: nat, minCount: nat, a: seq<Term>, b: seq<Term>, i: nat)
    requires StrictTotal(r) && IsRank(r, counts, limit, minCount, a) && IsRank(r, counts, limit, minCount, b)
    requires i < |a| && i <= |b| && a[..i] == b[..i]
    ensures i < |b| && !RankLess(r, a[i], b[i])
  {
    assert a[i] in a;
    assert Eligible(counts, minCount, a[i]);
    forall j | 0 <= j < i ensures b[j] != a[i] {
      assert a[..i][j] == b[..i][j];
      assert RankLess(r, a[j], a[i]);
      RankLessIsAsymmetric(r, a[j], a[i]);
    }
    if a[i] in b {
      var j :| 0 <= j < |b| && b[j] == a[i];
      assert i <= j;
      RankLessIsAsymmetric(r, b[i], a[i]);
    } else {
      assert b[i] in b;
      RankLessIsAsymmetric(r, b[i], a[i]);
    }
  }

  /** There is only one such list. */
  lemma {:induction false} RankIsUnique(r: Rules, counts: multiset<string>, limit: nat, minCount: nat, a: seq<Term>, b: seq<Term>, i: nat)
    requires StrictTotal(r) && IsRank(r, counts, limit, minCount, a) && IsRank(r, counts, limit, minCount, b)
    requires i <= |a| && i <= |b| && a[..i] == b[..i]
    ensures a == b
    decreases |a| - i
  {
    if i < |a| {
      NoTermBeatsRank(r, counts, limit, minCount, a, b, i);
      NoTermBeatsRank(r, counts, limit, minCount, b, a, i);
      SameTerm(r, counts, a[i], b[i]);
      assert a[..i + 1] == a[..i] + [a[i]] && b[..i + 1] == b[..i] + [b[i]];
      RankIsUnique(r, counts, limit, minCount, a, b, i + 1);
    } else if i < |b| {
      NoTermBeatsRank(r, counts, limit, minCount, b, a, i);
    }
  }

  lemma SameTerm(r: Rules, counts: multiset<string>, a: Term, b: Term)
    requires StrictTotal(r) && !RankLess(r, a, b) && !RankLess(r, b, a)
    ensures a == b
  {
  }

  // ------------------------------------------------------------------ count maps

  type Counts = map<string, int>

  ghost predicate Represents(c: Counts, ms: multiset<string>) {
    && (forall x :: x in c <==> x in ms)
    && (forall x :: x in c ==> c[x] == ms[x])
  }

  function Bump(c: Counts, x: string): Counts { c[x := (if x in c then c[x] else 0) + 1] }

  lemma BumpCounts(c: Counts, ms: multiset<string>, x: string)
    requires Represents(c, ms)
    ensures Represents(Bump(c, x), ms + multiset{x})
  {
  }

  method BumpAll(c: Counts, xs: seq<string>, ghost ms: multiset<string>) returns (out: Counts)
    requires Represents(c, ms)
    ensures Represents(out, ms + multiset(xs))
  {
    out := c;
    for i := 0 to |xs|
      invariant Represents(out, ms + multiset(xs[..i]))
    {
      assert xs[..i + 1] == xs[..i] + [xs[i]];
      BumpCounts(out, ms + multiset(xs[..i]), xs[i]);
      out := Bump(out, xs[i]);
    }
    assert xs[..|xs|] == xs;
  }

  /** Place a term in a sorted list. */
  function Insert(r: Rules, t: Term, out: seq<Term>): seq<Term> {
    if out == [] || RankLess(r, t, out[0]) then [t] + out else [out[0]] + Insert(r, t, out[1..])
  }

  lemma {:induction false} InsertSorts(r: Rules, t: Term, out: seq<Term>)
    requires StrictTotal(r) && SortedTerms(r, out)
    requires forall u :: u in out ==> u.term != t.term
    ensures SortedTerms(r, Insert(r, t, out))
    ensures forall u :: u in Insert(r, t, out) <==> u == t || u in out
  {
    if out == [] {
    } else if RankLess(r, t, out[0]) {
      assert forall j :: 0 < j < |out| ==> RankLess(r, out[0], out[j]);
    } else {
      InsertSorts(r, t, out[1..]);
      var rest := Insert(r, t, out[1..]);
      assert out[0] in out && RankLess(r, out[0], t);
      forall j | 0 <= j < |rest| ensures RankLess(r, out[0], rest[j]) {
        assert rest[j] in rest;
        if rest[j] != t { var k :| 0 <= k < |out[1..]| && out[1..][k] == rest[j]; assert out[k + 1] == rest[j]; }
      }
    }
  }

  /** Filter, sort and cut a count map, whatever order its entries come in. */
  method Rank(r: Rules, counts: Counts, limit: nat, minCount: nat, ghost ms: multiset<string>) returns (out: seq<Term>)
    requires StrictTotal(r) && Represents(counts, ms)
    ensures IsRank(r, ms, limit, minCount, out)
    // highest count first, ties in term order; true counts; everything eligible while there is room
    ensures forall i, j :: 0 <= i < j < |out| ==>
              out[i].count > out[j].count || (out[i].count == out[j].count && r.before(out[i].term, out[j].term))
    ensures forall t :: t in out ==> t.term in ms && t.count == ms[t.term] && minCount <= t.count
    ensures |out| < limit ==> forall x :: x in ms && minCount <= ms[x] ==> Term(x, ms[x]) in out
  {
    var todo := counts.Keys;
    var sorted: seq<Term> := [];
    while todo != {}
      invariant todo <= counts.Keys && SortedTerms(r, sorted)
      invariant forall t :: t in sorted <==> Eligible(ms, minCount, t) && t.term !in todo
    {
      var x :| x in todo;
      todo := todo - {x};
      if counts[x] >= minCount {
        InsertSorts(r, Term(x, counts[x]), sorted);
        sorted := Insert(r, Term(x, counts[x]), sorted);
      }
    }
    out := if |sorted| <= limit then sorted else sorted[..limit];
    forall t | Eligible(ms, minCount, t) && t !in out
      ensures |out| == limit && forall u :: u in out ==> RankLess(r, u, t)
    {
      var k :| 0 <= k < |sorted| && sorted[k] == t;
      assert forall j :: 0 <= j < |out| ==> out[j] == sorted[j] && out[j] in out;
      assert k >= limit;
    }
    forall x | x in ms && minCount <= ms[x] && |out| < limit ensures Term(x, ms[x]) in out {
      assert Eligible(ms, minCount, Term(x, ms[x]));
    }
  }

  // ------------------------------------------------------------------ the signal

  ghost predicate IsSignal(r: Rules, ms: seq<Message>, s: Signal) {
    var noise := NoiseDomains(r, ms);
    && IsRank(r, Gather(r, Domains(noise), ms), 60, 1, s.senderDomains)
    && IsRank(r, Gather(r, Names(noise), ms), 60, 1, s.senderNames)
    && IsRank(r, Gather(r, Keywords(noise), ms), 60, 2, s.subjectKeywords)
    && IsRank(r, Gather(r, Domains(noise), ms), 12, 1, Labels(s.senderClusters))
    && AllClusters(r, noise, ms, s.senderClusters)
  }

  function Labels(clusters: seq<Cluster>): (ts: seq<Term>)
    ensures |ts| == |clusters|
    ensures forall i :: 0 <= i < |ts| ==> ts[i] == Term(clusters[i].domain, clusters[i].count)
  {
    if clusters == [] then [] else Labels(clusters[..|clusters| - 1]) + [Term(clusters[|clusters| - 1].domain, clusters[|clusters| - 1].count)]
  }

  lemma GatherNext(r: Rules, t: Tally, seen: seq<Message>, m: Message)
    ensures Gather(r, t, seen + [m]) == Gather(r, t, seen) + Adds(r, t, m)
  {
    assert (seen + [m])[..|seen|] == seen;
  }

  function BumpIf(c: Counts, x: Option<string>): Counts { if x.Some? then Bump(c, x.value) else c }

  /** A message that adds at most one term to a tally. */
  lemma TallyOne(r: Rules, t: Tally, c: Counts, seen: seq<Message>, m: Message, x: Option<string>)
    requires Represents(c, Gather(r, t, seen)) && Adds(r, t, m) == AsMultiset(x)
    ensures Represents(BumpIf(c, x), Gather(r, t, seen + [m]))
  {
    GatherNext(r, t, seen, m);
    if x.Some? { BumpCounts(c, Gather(r, t, seen), x.value); }
  }

  function NoReplyDomain(r: Rules, m: Message): Option<string> {
    if r.noReply(m.senderEmail) then Domain(r, m) else None
  }

  ghost predicate Totalled(r: Rules, seen: seq<Message>, total: Counts, noReply: Counts) {
    Represents(total, Gather(r, Total, seen)) && Represents(noReply, Gather(r, NoReply, seen))
  }

  lemma TotalsStep(r: Rules, seen: seq<Message>, m: Message, total: Counts, noReply: Counts)
    requires Totalled(r, seen, total, noReply)
    ensures Totalled(r, seen + [m], BumpIf(total, Domain(r, m)), BumpIf(noReply, NoReplyDomain(r, m)))
  {
    TallyOne(r, Total, total, seen, m, Domain(r, m));
    TallyOne(r, NoReply, noReply, seen, m, NoReplyDomain(r, m));
  }

  function NoiseOf(total: Counts, noReply: Counts): set<string>
    requires forall d :: d in total ==> total[d] >= 0
    requires forall d :: d in noReply ==> noReply[d] >= 0
  {
    set d | d in total && IsNoise(if d in noReply then noReply[d] else 0, total[d])
  }

  lemma NoiseFromTotals(r: Rules, ms: seq<Message>, total: Counts, noReply: Counts)
    requires Totalled(r, ms, total, noReply)
    ensures (forall d :: d in total ==> total[d] >= 0) && (forall d :: d in noReply ==> noReply[d] >= 0)
    ensures NoiseOf(total, noReply) == NoiseDomains(r, ms)
  {
  }

  /** First pass: each domain's messages and its no-reply messages. */
  method FindNoiseDomains(r: Rules, ms: seq<Message>) returns (noise: set<string>)
    ensures noise == NoiseDomains(r, ms)
    // at least four no-reply messages in five
    ensures forall d :: d in noise <==>
              d in Gather(r, Total, ms) && 5 * Gather(r, NoReply, ms)[d] >= 4 * Gather(r, Total, ms)[d]
  {
    var total: Counts, noReply: Counts := map[], map[];
    for i := 0 to |ms|
      invariant Totalled(r, ms[..i], total, noReply)
    {
      var m := ms[i];
      assert ms[..i + 1] == ms[..i] + [m];
      TotalsStep(r, ms[..i], m, total, noReply);
      total, noReply := BumpIf(total, Domain(r, m)), BumpIf(noReply, NoReplyDomain(r, m));
    }
    assert ms[..|ms|] == ms;
    NoiseFromTotals(r, ms, total, noReply);
    noise := NoiseOf(total, noReply);
    forall d | d in Gather(r, Total, ms)
      ensures d in noise <==> 5 * Gather(r, NoReply, ms)[d] >= 4 * Gather(r, Total, ms)[d]
    {
      FourInFive(Gather(r, NoReply, ms)[d], Gather(r, Total, ms)[d]);
    }
  }

  datatype Maps = Maps(domains: Counts, names: Counts, keywords: Counts, perDomain: map<string, Counts>)

  function PerDomain(pd: map<string, Counts>, d: string): Counts { if d in pd then pd[d] else map[] }

  ghost predicate TalliedFrom(r: Rules, noise: set<string>, ms: seq<Message>, pd: map<string, Counts>, d: string) {
    Represents(PerDomain(pd, d), Gather(r, KeywordsFrom(noise, d), ms))
  }

  ghost predicate Tallied(r: Rules, noise: set<string>, ms: seq<Message>, m: Maps) {
    && Represents(m.domains, Gather(r, Domains(noise), ms))
    && Represents(m.names, Gather(r, Names(noise), ms))
    && Represents(m.keywords, Gather(r, Keywords(noise), ms))
    && forall d :: TalliedFrom(r, noise, ms, m.perDomain, d)
  }

  /** The tally is one the second pass keeps for these noise domains. */
  predicate SecondPass(t: Tally, noise: set<string>) {
    match t
    case Domains(n) => n == noise
    case Names(n) => n == noise
    case Keywords(n) => n == noise
    case KeywordsFrom(n, _) => n == noise
    case _ => false
  }

  /** A message of a noise domain adds nothing to any tally of the second pass. */
  lemma SkippedAddsNothing(r: Rules, noise: set<string>, t: Tally, seen: seq<Message>, m: Message)
    requires SecondPass(t, noise) && Skips(r, noise, m)
    ensures Gather(r, t, seen + [m]) == Gather(r, t, seen)
  {
    GatherNext(r, t, seen, m);
    assert Adds(r, t, m) == multiset{};
  }

  lemma SkippedKeepsTallies(r: Rules, noise: set<string>, seen: seq<Message>, m: Message, maps: Maps)
    requires Tallied(r, noise, seen, maps) && Skips(r, noise, m)
    ensures Tallied(r, noise, seen + [m], maps)
  {
    SkippedAddsNothing(r, noise, Domains(noise), seen, m);
    SkippedAddsNothing(r, noise, Names(noise), seen, m);
    SkippedAddsNothing(r, noise, Keywords(noise), seen, m);
    forall d ensures TalliedFrom(r, noise, seen + [m], maps.perDomain, d) {
      assert TalliedFrom(r, noise, seen, maps.perDomain, d);
      SkippedAddsNothing(r, noise, KeywordsFrom(noise, d), seen, m);
    }
  }

  /** The keyword map of the message's own domain; every other domain's stays. */
  method AddDomainKeywords(r: Rules, noise: set<string>, ghost seen: seq<Message>, m: Message, pd: map<string, Counts>)
    returns (out: map<string, Counts>)
    requires forall d :: TalliedFrom(r, noise, seen, pd, d)
    requires !Skips(r, noise, m)
    ensures forall d :: TalliedFrom(r, noise, seen + [m], out, d)
  {
    out := pd;
    var domain, tokens := Domain(r, m), Tokens(r, m);
    if domain.Some? && |tokens| > 0 {
      assert TalliedFrom(r, noise, seen, pd, domain.value);
      var dk := BumpAll(PerDomain(pd, domain.value), tokens, Gather(r, KeywordsFrom(noise, domain.value), seen));
      out := out[domain.value := dk];
    }
    forall d ensures TalliedFrom(r, noise, seen + [m], out, d) {
      assert TalliedFrom(r, noise, seen, pd, d);
      GatherNext(r, KeywordsFrom(noise, d), seen, m);
    }
  }

  /** The three flat tallies of a message that is kept. */
  lemma KeptAdds(r: Rules, noise: set<string>, seen: seq<Message>, m: Message, maps: Maps)
    requires Tallied(r, noise, seen, maps) && !Skips(r, noise, m)
    ensures Represents(BumpIf(maps.domains, Domain(r, m)), Gather(r, Domains(noise), seen + [m]))
    ensures Represents(BumpIf(maps.names, Name(r, m)), Gather(r, Names(noise), seen + [m]))
    ensures Gather(r, Keywords(noise), seen + [m]) == Gather(r, Keywords(noise), seen) + multiset(Tokens(r, m))
  {
    assert Adds(r, Domains(noise), m) == AsMultiset(Domain(r, m));
    assert Adds(r, Names(noise), m) == AsMultiset(Name(r, m));
    assert Adds(r, Keywords(noise), m) == multiset(Tokens(r, m));
    TallyOne(r, Domains(noise), maps.domains, seen, m, Domain(r, m));
    TallyOne(r, Names(noise), maps.names, seen, m, Name(r, m));
    GatherNext(r, Keywords(noise), seen, m);
  }

  /** One message of the second pass. */
  method AddMessage(r: Rules, noise: set<string>, ghost seen: seq<Message>, m: Message, before: Maps) returns (after: Maps)
    requires Tallied(r, noise, seen, before)
    ensures Tallied(r, noise, seen + [m], after)
  {
    if Skips(r, noise, m) {
      SkippedKeepsTallies(r, noise, seen, m, before);
      return before;
    }
    KeptAdds(r, noise, seen, m, before);
    var domains := BumpIf(before.domains, Domain(r, m));
    var names := BumpIf(before.names, Name(r, m));
    var keywords := BumpAll(before.keywords, Tokens(r, m), Gather(r, Keywords(noise), seen));
    var perDomain := AddDomainKeywords(r, noise, seen, m, before.perDomain);
    after := Maps(domains, names, keywords, perDomain);
  }

  /** The two passes together. */
  method TallyMessages(r: Rules, ms: seq<Message>) returns (maps: Maps)
    ensures Tallied(r, NoiseDomains(r, ms), ms, maps)
  {
    var noise := FindNoiseDomains(r, ms);
    maps := Maps(map[], map[], map[], map[]);
    for i := 0 to |ms|
      invariant Tallied(r, noise, ms[..i], maps)
    {
      assert ms[..i + 1] == ms[..i] + [ms[i]];
      maps := AddMessage(r, noise, ms[..i], ms[i], maps);
    }
    assert ms[..|ms|] == ms;
  }

  ghost predicate IsCluster(r: Rules, noise: set<string>, ms: seq<Message>, c: Cluster) {
    IsRank(r, Gather(r, KeywordsFrom(noise, c.domain), ms), 8, 2, c.keywords)
  }

  lemma LabelsNext(clusters: seq<Cluster>, c: Cluster)
    ensures Labels(clusters + [c]) == Labels(clusters) + [Term(c.domain, c.count)]
  {
    assert (clusters + [c])[..|clusters|] == clusters;
  }

  ghost predicate AllClusters(r: Rules, noise: set<string>, ms: seq<Message>, clusters: seq<Cluster>) {
    forall i :: 0 <= i < |clusters| ==> IsCluster(r, noise, ms, clusters[i])
  }

  lemma AllClustersNext(r: Rules, noise: set<string>, ms: seq<Message>, clusters: seq<Cluster>, c: Cluster)
    requires AllClusters(r, noise, ms, clusters) && IsCluster(r, noise, ms, c)
    ensures AllClusters(r, noise, ms, clusters + [c])
  {
  }

  method BuildCluster(r: Rules, ghost noise: set<string>, ghost ms: seq<Message>, d: Term, pd: map<string, Counts>)
    returns (c: Cluster)
    requires StrictTotal(r) && TalliedFrom(r, noise, ms, pd, d.term)
    ensures c.domain == d.term && c.count == d.count && IsCluster(r, noise, ms, c)
  {
    var keywords := Rank(r, PerDomain(pd, d.term), CLUSTER_KEYWORD_LIMIT, MIN_KEYWORD_COUNT,
                         Gather(r, KeywordsFrom(noise, d.term), ms));
    c := Cluster(d.term, d.count, keywords);
  }

  method BuildClusters(r: Rules, ghost noise: set<string>, ghost ms: seq<Message>, topDomains: seq<Term>, pd: map<string, Counts>)
    returns (clusters: seq<Cluster>)
    requires StrictTotal(r) && forall d :: TalliedFrom(r, noise, ms, pd, d)
    ensures Labels(clusters) == topDomains
    ensures AllClusters(r, noise, ms, clusters)
  {
    clusters := [];
    for i := 0 to |topDomains|
      invariant Labels(clusters) == topDomains[..i]
      invariant AllClusters(r, noise, ms, clusters)
    {
      assert TalliedFrom(r, noise, ms, pd, topDomains[i].term);
      var c := BuildCluster(r, noise, ms, topDomains[i], pd);
      LabelsNext(clusters, c);
      AllClustersNext(r, noise, ms, clusters, c);
      clusters := clusters + [c];
      assert topDomains[..i + 1] == topDomains[..i] + [topDomains[i]];
    }
    assert topDomains[..|topDomains|] == topDomains;
  }

  method BuildSenderSignal(r: Rules, ms: seq<Message>) returns (s: Signal)
    requires StrictTotal(r)
    ensures IsSignal(r, ms, s)
    ensures |s.senderDomains| <= 60 && |s.senderNames| <= 60 && |s.subjectKeywords| <= 60 && |s.senderClusters| <= 12
    ensures forall t :: t in s.subjectKeywords ==> t.count >= 2
    ensures forall c :: c in s.senderClusters ==> |c.keywords| <= 8 && forall t :: t in c.keywords ==> t.count >= 2
  {
    var maps := TallyMessages(r, ms);
    ghost var noise := NoiseDomains(r, ms);
    var topDomains := Rank(r, maps.domains, CLUSTER_DOMAIN_LIMIT, 1, Gather(r, Domains(noise), ms));
    var clusters := BuildClusters(r, noise, ms, topDomains, maps.perDomain);
    var domains := Rank(r, maps.domains, TOP_TERMS, 1, Gather(r, Domains(noise), ms));
    var names := Rank(r, maps.names, TOP_TERMS, 1, Gather(r, Names(noise), ms));
    var keywords := Rank(r, maps.keywords, TOP_TERMS, MIN_KEYWORD_COUNT, Gather(r, Keywords(noise), ms));
    s := Signal(domains, names, keywords, clusters);
  }

  // ------------------------------------------------------------ order independence

  lemma {:induction false} SumRemove(f: Message -> multiset<string>, ms: seq<Message>, i: nat)
    requires i < |ms|
    ensures Sum(f, ms) == Sum(f, ms[..i] + ms[i + 1..]) + f(ms[i])
  {
    var last := |ms| - 1;
    var rest := ms[..i] + ms[i + 1..];
    if i == last {
      assert rest == ms[..last];
    } else {
      SumRemove(f, ms[..last], i);
      assert rest[..|rest| - 1] == ms[..last][..i] + ms[..last][i + 1..];
      assert rest[|rest| - 1] == ms[last];
    }
  }

  lemma RemoveOne(a: seq<Message>, b: seq<Message>, i: nat)
    requires a != [] && multiset(a) == multiset(b) && i < |b| && b[i] == a[|a| - 1]
    ensures multiset(a[..|a| - 1]) == multiset(b[..i] + b[i + 1..])
  {
    var x, init, rest := b[i], a[..|a| - 1], b[..i] + b[i + 1..];
    assert b == b[..i] + [x] + b[i + 1..];
    assert multiset(b) == multiset(rest) + multiset{x};
    assert a == init + [x];
    assert multiset(a) == multiset(init) + multiset{x};
    assert multiset(init) == multiset(a) - multiset{x};
    assert multiset(rest) == multiset(b) - multiset{x};
  }

  lemma {:induction false} SumIgnoresOrder(f: Message -> multiset<string>, a: seq<Message>, b: seq<Message>)
    requires multiset(a) == multiset(b)
    ensures Sum(f, a) == Sum(f, b)
    decreases |a|
  {
    if a == [] {
      assert |multiset(b)| == 0;
    } else {
      assert a[|a| - 1] in multiset(b);
      var i :| 0 <= i < |b| && b[i] == a[|a| - 1];
      SumRemove(f, b, i);
      RemoveOne(a, b, i);
      SumIgnoresOrder(f, a[..|a| - 1], b[..i] + b[i + 1..]);
    }
  }

  lemma GatherIgnoresOrder(r: Rules, t: Tally, a: seq<Message>, b: seq<Message>)
    requires multiset(a) == multiset(b)
    ensures Gather(r, t, a) == Gather(r, t, b)
  {
    SumIgnoresOrder(AddsOf(r, t), a, b);
  }

  /** Two samples whose second passes tally the same have the same signal in every part. */
  lemma SameTalliesSameSignal(r: Rules, a: seq<Message>, b: seq<Message>, s: Signal, t: Signal)
    requires StrictTotal(r) && IsSignal(r, a, s) && IsSignal(r, b, t)
    requires var n, m := NoiseDomains(r, a), NoiseDomains(r, b);
      && Gather(r, Domains(n), a) == Gather(r, Domains(m), b)
      && Gather(r, Names(n), a) == Gather(r, Names(m), b)
      && Gather(r, Keywords(n), a) == Gather(r, Keywords(m), b)
      && forall d :: Gather(r, KeywordsFrom(n, d), a) == Gather(r, KeywordsFrom(m, d), b)
    ensures s == t
  {
    var n := NoiseDomains(r, a);
    RankIsUnique(r, Gather(r, Domains(n), a), TOP_TERMS, 1, s.senderDomains, t.senderDomains, 0);
    RankIsUnique(r, Gather(r, Names(n), a), TOP_TERMS, 1, s.senderNames, t.senderNames, 0);
    RankIsUnique(r, Gather(r, Keywords(n), a), TOP_TERMS, MIN_KEYWORD_COUNT, s.subjectKeywords, t.subjectKeywords, 0);
    var c, d := s.senderClusters, t.senderClusters;
    RankIsUnique(r, Gather(r, Domains(n), a), CLUSTER_DOMAIN_LIMIT, 1, Labels(c), Labels(d), 0);
    assert |c| == |Labels(c)| == |d|;
    forall i | 0 <= i < |c| ensures c[i] == d[i] {
      assert Labels(c)[i] == Labels(d)[i];
      RankIsUnique(r, Gather(r, KeywordsFrom(n, c[i].domain), a), CLUSTER_KEYWORD_LIMIT, MIN_KEYWORD_COUNT, c[i].keywords, d[i].keywords, 0);
    }
    assert c == d;
  }

  /** Two samples with the same messages, in any order, have the same signal in every part. */
  lemma SignalIgnoresOrder(r: Rules, a: seq<Message>, b: seq<Message>, s: Signal, t: Signal)
    requires StrictTotal(r) && multiset(a) == multiset(b)
    requires IsSignal(r, a, s) && IsSignal(r, b, t)
    ensures NoiseDomains(r, a) == NoiseDomains(r, b) && s == t
  {
    GatherIgnoresOrder(r, Total, a, b);
    GatherIgnoresOrder(r, NoReply, a, b);
    var noise := NoiseDomains(r, a);
    GatherIgnoresOrder(r, Domains(noise), a, b);
    GatherIgnoresOrder(r, Names(noise), a, b);
    GatherIgnoresOrder(r, Keywords(noise), a, b);
    forall d ensures Gather(r, KeywordsFrom(noise, d), a) == Gather(r, KeywordsFrom(noise, d), b) {
      GatherIgnoresOrder(r, KeywordsFrom(noise, d), a, b);
    }
    SameTalliesSameSignal(r, a, b, s, t);
  }

  // ------------------------------------------------------------------ noise leaves no trace

  ghost function Erase(skip: Message -> bool, ms: seq<Message>): seq<Message> {
    if ms == [] then []
    else
      var last := ms[|ms| - 1];
      Erase(skip, ms[..|ms| - 1]) + if skip(last) then [] else [last]
  }

  lemma SumNext(f: Message -> multiset<string>, ms: seq<Message>, m: Message)
    ensures Sum(f, ms + [m]) == Sum(f, ms) + f(m)
  {
    assert (ms + [m])[..|ms|] == ms;
  }

  /** Erasing what adds nothing keeps the sum; `g` may be any tally that agrees on the rest. */
  lemma {:induction false} SumErased(f: Message -> multiset<string>, g: Message -> multiset<string>,
                                     skip: Message -> bool, ms: seq<Message>)
    requires forall m :: if skip(m) then f(m) == multiset{} else g(m) == f(m)
    ensures Sum(g, Erase(skip, ms)) == Sum(f, ms)
  {
    if ms != [] {
      var init, last := ms[..|ms| - 1], ms[|ms| - 1];
      SumErased(f, g, skip, init);
      if skip(last) { assert Erase(skip, ms) == Erase(skip, init); }
      else { SumNext(g, Erase(skip, init), last); }
    }
  }

  /** Erasing what adds no `d` keeps the count of `d`. */
  lemma {:induction false} CountErased(f: Message -> multiset<string>, skip: Message -> bool, ms: seq<Message>, d: string)
    requires forall m :: skip(m) ==> f(m)[d] == 0
    ensures Sum(f, Erase(skip, ms))[d] == Sum(f, ms)[d]
  {
    if ms != [] {
      var init, last := ms[..|ms| - 1], ms[|ms| - 1];
      CountErased(f, skip, init, d);
      if skip(last) { assert Erase(skip, ms) == Erase(skip, init); }
      else { SumNext(f, Erase(skip, init), last); }
    }
  }

  /** Erasing all that adds a `d` leaves none. */
  lemma {:induction false} NoneLeft(f: Message -> multiset<string>, skip: Message -> bool, ms: seq<Message>, d: string)
    requires forall m :: !skip(m) ==> f(m)[d] == 0
    ensures Sum(f, Erase(skip, ms))[d] == 0
  {
    if ms != [] {
      var init, last := ms[..|ms| - 1], ms[|ms| - 1];
      NoneLeft(f, skip, init, d);
      if skip(last) { assert Erase(skip, ms) == Erase(skip, init); }
      else { SumNext(f, Erase(skip, init), last); }
    }
  }

  /** The sample with every message of a noise domain erased. */
  ghost function WithoutNoise(r: Rules, noise: set<string>, ms: seq<Message>): seq<Message> {
    Erase(m => Skips(r, noise, m), ms)
  }

  function ForNoise(t: Tally, noise: set<string>): Tally {
    match t
    case Domains(_) => Domains(noise)
    case Names(_) => Names(noise)
    case Keywords(_) => Keywords(noise)
    case KeywordsFrom(_, d) => KeywordsFrom(noise, d)
    case _ => t
  }

  /** Erasing the noise messages leaves each tally of the second pass as it is: domains, names and keywords. */
  lemma ErasingNoiseKeepsTally(r: Rules, noise: set<string>, t: Tally, ms: seq<Message>)
    requires SecondPass(t, noise)
    ensures Gather(r, t, WithoutNoise(r, noise, ms)) == Gather(r, t, ms)
    ensures Gather(r, ForNoise(t, {}), WithoutNoise(r, noise, ms)) == Gather(r, t, ms)
  {
    var f, g, skip := AddsOf(r, t), AddsOf(r, ForNoise(t, {})), (m: Message) => Skips(r, noise, m);
    forall m ensures if skip(m) then f(m) == multiset{} else g(m) == f(m) { SkipsOrAgrees(r, noise, t, m); }
    SumErased(f, f, skip, ms);
    SumErased(f, g, skip, ms);
  }

  lemma SkipsOrAgrees(r: Rules, noise: set<string>, t: Tally, m: Message)
    requires SecondPass(t, noise)
    ensures if Skips(r, noise, m) then Adds(r, t, m) == multiset{} else Adds(r, ForNoise(t, {}), m) == Adds(r, t, m)
  {
  }

  /** A message adds to the totals of its own domain only. */
  lemma TotalsAreOfOwnDomain(r: Rules, t: Tally, m: Message, d: string)
    requires t.Total? || t.NoReply?
    ensures Domain(r, m) != Some(d) ==> Adds(r, t, m)[d] == 0
  {
  }

  /** The first pass over the erased sample counts every other domain as before, and noise domains not at all. */
  lemma ErasedTotals(r: Rules, noise: set<string>, t: Tally, ms: seq<Message>, d: string)
    requires t.Total? || t.NoReply?
    ensures Gather(r, t, WithoutNoise(r, noise, ms))[d] == if d in noise then 0 else Gather(r, t, ms)[d]
  {
    var f, skip := AddsOf(r, t), (m: Message) => Skips(r, noise, m);
    if d in noise {
      forall m | !skip(m) ensures f(m)[d] == 0 { TotalsAreOfOwnDomain(r, t, m, d); }
      NoneLeft(f, skip, ms, d);
    } else {
      forall m | skip(m) ensures f(m)[d] == 0 { TotalsAreOfOwnDomain(r, t, m, d); }
      CountErased(f, skip, ms, d);
    }
  }

  lemma ErasedHasNoNoise(r: Rules, ms: seq<Message>)
    ensures NoiseDomains(r, WithoutNoise(r, NoiseDomains(r, ms), ms)) == {}
  {
    var noise := NoiseDomains(r, ms);
    forall d ensures d !in NoiseDomains(r, WithoutNoise(r, noise, ms)) {
      ErasedTotals(r, noise, Total, ms, d);
      ErasedTotals(r, noise, NoReply, ms, d);
    }
  }

  /** The signal is that of the sample with all noise messages erased: none of them counts anywhere in it. */
  lemma NoiseLeavesNoTrace(r: Rules, ms: seq<Message>, s: Signal, t: Signal)
    requires StrictTotal(r) && IsSignal(r, ms, s) && IsSignal(r, WithoutNoise(r, NoiseDomains(r, ms), ms), t)
    ensures s == t
  {
    var noise := NoiseDomains(r, ms);
    var erased := WithoutNoise(r, noise, ms);
    ErasedHasNoNoise(r, ms);
    ErasingNoiseKeepsTally(r, noise, Domains(noise), ms);
    ErasingNoiseKeepsTally(r, noise, Names(noise), ms);
    ErasingNoiseKeepsTally(r, noise, Keywords(noise), ms);
    forall d ensures Gather(r, KeywordsFrom(noise, d), ms) == Gather(r, KeywordsFrom({}, d), erased) {
      ErasingNoiseKeepsTally(r, noise, KeywordsFrom(noise, d), ms);
    }
    SameTalliesSameSignal(r, ms, erased, s, t);
  }

  lemma {:induction false} NoiseIsNeverTallied(r: Rules, noise: set<string>, ms: seq<Message>, d: string)
    requires d in noise
    ensures d !in Gather(r, Domains(noise), ms)
  {
    if ms != [] { NoiseIsNeverTallied(r, noise, ms[..|ms| - 1], d); }
  }

  /** A noise domain is neither a sender domain nor a cluster of the signal. */
  lemma NoNoiseInSignal(r: Rules, ms: seq<Message>, s: Signal, d: string)
    requires IsSignal(r, ms, s) && d in NoiseDomains(r, ms)
    ensures forall t :: t in s.senderDomains ==> t.term != d
    ensures forall c :: c in s.senderClusters ==> c.domain != d
  {
    NoiseIsNeverTallied(r, NoiseDomains(r, ms), ms, d);
    forall c | c in s.senderClusters ensures c.domain != d {
      var i :| 0 <= i < |s.senderClusters| && s.senderClusters[i] == c;
      assert Labels(s.senderClusters)[i] in Labels(s.senderClusters);
    }
  }
}
