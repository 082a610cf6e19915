/**
 The dedup token of each unit of work, and the proof that a token names one unit:
 it can be read back from the right, however many underscores the inbox key has.
 */
module IdempotencyTokens {
  import opened Prelude

  predicate IsDigit(c: char) { '0' <= c <= '9' }

  /** The 24 characters of `toISOString` for a four-digit year: YYYY-MM-DDTHH:mm:ss.sssZ. */
  predicate IsIso(s: string) {
    |s| == 24 && forall i :: 0 <= i < 24 ==>
      if i == 4 || i == 7 then s[i] == '-'
      else if i == 10 then s[i] == 'T'
      else if i == 13 || i == 16 then s[i] == ':'
      else if i == 19 then s[i] == '.'
      else if i == 23 then s[i] == 'Z'
      else IsDigit(s[i])
  }

  type IsoDate = s: string | IsIso(s) witness "2026-01-01T00:00:00.000Z"

  datatype Phase = Continuation | Done

  datatype Work =
    | ThreadSort(inboxKey: string, windowStart: IsoDate, threadId: string)
    | BackfillChunk(inbox: string, window: IsoDate, generation: nat, startProcessed: nat, processed: nat, phase: Phase)
    | TaxonomyGen(jobKey: string)
    | LifecycleSend(job: string)

  /** Decimal, no leading zeros. */
  function Decimal(n: nat): (s: string)
    ensures s != [] && forall c :: c in s ==> IsDigit(c)
  {
    if n < 10 then [('0' as int + n) as char] else Decimal(n / 10) + [('0' as int + n % 10) as char]
  }

  function FromDecimal(s: string): Option<nat> {
    if s == [] || !IsDigit(s[|s| - 1]) then None
    else
      var low := s[|s| - 1] as int - '0' as int;
      if |s| == 1 then Some(low)
      else match FromDecimal(s[..|s| - 1]) case Some(high) => Some(10 * high + low) case None => None
  }

  lemma {:induction false} DecimalRoundTrip(n: nat)
    ensures FromDecimal(Decimal(n)) == Some(n)
  {
    if n >= 10 {
      DecimalRoundTrip(n / 10);
      assert Decimal(n)[..|Decimal(n)| - 1] == Decimal(n / 10);
    }
  }

  function ThreadSortDedupToken(inboxKey: string, windowStart: IsoDate, threadId: string): string {
    "THREAD_SORT_" + inboxKey + "_" + windowStart + "_" + threadId
  }

  function BackfillChunkDedupToken(inbox: string, window: IsoDate, generation: nat,
                                   startProcessed: nat, processed: nat, phase: Phase): string
  {
    var base := "BACKFILL_" + Span(inbox, window, generation, startProcessed, processed);
    if phase.Done? then base + "_done" else base
  }

  function Span(inbox: string, window: IsoDate, g: nat, a: nat, b: nat): string {
    inbox + "_" + window + "_g" + Decimal(g) + "_" + Decimal(a) + "_" + Decimal(b)
  }

  function TaxonomyGenDedupToken(jobKey: string): string { "TAXONOMY_GEN_" + jobKey }

  function LifecycleSendDedupToken(job: string): string { "LIFECYCLE_" + job }

  function Token(w: Work): string {
    match w
    case ThreadSort(k, d, t) => ThreadSortDedupToken(k, d, t)
    case BackfillChunk(k, d, g, a, b, p) => BackfillChunkDedupToken(k, d, g, a, b, p)
    case TaxonomyGen(k) => TaxonomyGenDedupToken(k)
    case LifecycleSend(k) => LifecycleSendDedupToken(k)
  }

  lemma Decimals()
    ensures Decimal(0) == "0" && Decimal(2) == "2" && Decimal(105) == "105"
  {
    assert Decimal(1) == "1";
    assert Decimal(10) == "10";
  }

  /** What the tokens look like; the terminal chunk's differs from a continuation's of the same span. */
  lemma TokenFormats(window: IsoDate)
    ensures Token(ThreadSort("a_b", window, "t1")) == "THREAD_SORT_a_b_" + window + "_t1"
    ensures Token(BackfillChunk("k", window, 2, 0, 105, Continuation)) == "BACKFILL_k_" + window + "_g2_0_105"
    ensures Token(BackfillChunk("k", window, 2, 0, 105, Done)) == "BACKFILL_k_" + window + "_g2_0_105_done"
    ensures Token(TaxonomyGen("j")) == "TAXONOMY_GEN_j" && Token(LifecycleSend("j")) == "LIFECYCLE_j"
  {
    Decimals();
    assert "THREAD_SORT_" + "a_b" == "THREAD_SORT_a_b" && "THREAD_SORT_a_b" + "_" == "THREAD_SORT_a_b_";
    SpanFormat(window);
    assert "BACKFILL_" + ("k_" + window + "_g2_0_105") == "BACKFILL_k_" + window + "_g2_0_105";
    assert "BACKFILL_k_" + window + "_g2_0_105" + "_done" == "BACKFILL_k_" + window + "_g2_0_105_done";
  }

  lemma SpanFormat(window: IsoDate)
    ensures Span("k", window, 2, 0, 105) == "k_" + window + "_g2_0_105"
  {
    Decimals();
    var head := "k_" + window;
    assert "k" + "_" == "k_";
    assert head + "_g" + "2" + "_" + "0" + "_" + "105" == head + "_g2_0_105";
  }

  // ------------------------------------------------ reading a token from the right

  /** What stands before and after the last underscore. */
  function SplitLast(s: string): Option<(string, string)> {
    if s == [] then None
    else if s[|s| - 1] == '_' then Some((s[..|s| - 1], ""))
    else match SplitLast(s[..|s| - 1])
      case Some((a, b)) => Some((a, b + [s[|s| - 1]]))
      case None => None
  }

  lemma {:induction false} SplitLastJoins(a: string, b: string)
    requires '_' !in b
    ensures SplitLast(a + "_" + b) == Some((a, b))
    decreases |b|
  {
    var s := a + "_" + b;
    if b == [] {
      assert s == a + "_";
      assert s[..|s| - 1] == a;
    } else {
      var last := |b| - 1;
      assert s[..|s| - 1] == a + "_" + b[..last];
      SplitLastJoins(a, b[..last]);
      assert b[..last] + [b[last]] == b;
    }
  }

  /** An inbox key and a date joined by an underscore. */
  function ParseScope(s: string): Option<(string, IsoDate)> {
    if |s| >= 25 && IsIso(s[|s| - 24..]) && s[|s| - 25] == '_' then Some((s[..|s| - 25], s[|s| - 24..])) else None
  }

  function ParseThreadSort(s: string): Option<Work> {
    match SplitLast(s)
    case Some((scope, t)) =>
      (match ParseScope(scope) case Some((k, d)) => Some(ThreadSort(k, d, t)) case None => None)
    case None => None
  }

  function ParseSpan(s: string, phase: Phase): Option<Work> {
    match SplitLast(s)
    case Some((s1, b)) =>
      (match SplitLast(s1)
       case Some((s2, a)) =>
         (match SplitLast(s2)
          case Some((scope, g)) =>
            (match ParseScope(scope)
             case Some((k, d)) =>
               if g != [] && g[0] == 'g' && FromDecimal(g[1..]).Some? && FromDecimal(a).Some? && FromDecimal(b).Some?
               then Some(BackfillChunk(k, d, FromDecimal(g[1..]).value, FromDecimal(a).value, FromDecimal(b).value, phase))
               else None
             case None => None)
          case None => None)
       case None => None)
    case None => None
  }

  function ParseBackfill(s: string): Option<Work> {
    if |s| >= 5 && s[|s| - 5..] == "_done" then ParseSpan(s[..|s| - 5], Done) else ParseSpan(s, Continuation)
  }

  predicate StartsWith(s: string, prefix: string) { prefix <= s }

  function Parse(s: string): Option<Work> {
    if StartsWith(s, "THREAD_SORT_") then ParseThreadSort(s[12..])
    else if StartsWith(s, "BACKFILL_") then ParseBackfill(s[9..])
    else if StartsWith(s, "TAXONOMY_GEN_") then Some(TaxonomyGen(s[13..]))
    else if StartsWith(s, "LIFECYCLE_") then Some(LifecycleSend(s[10..]))
    else None
  }

  lemma NoUnderscore(s: string)
    requires IsIso(s) || (forall c :: c in s ==> IsDigit(c))
    ensures '_' !in s
  {
  }

  lemma ScopeRoundTrip(k: string, d: IsoDate)
    ensures ParseScope(k + "_" + d) == Some((k, d))
  {
    var s := k + "_" + d;
    assert s[|s| - 24..] == d;
    assert s[..|s| - 25] == k;
  }

  lemma ThreadSortRoundTrip(k: string, d: IsoDate, t: string)
    requires '_' !in t
    ensures Parse(ThreadSortDedupToken(k, d, t)) == Some(ThreadSort(k, d, t))
  {
    var s := ThreadSortDedupToken(k, d, t);
    assert s == "THREAD_SORT_" + ((k + "_" + d) + "_" + t);
    assert s[12..] == (k + "_" + d) + "_" + t;
    SplitLastJoins(k + "_" + d, t);
    ScopeRoundTrip(k, d);
  }

  lemma GenerationShape(scope: string, g: string)
    ensures scope + "_g" + g == scope + "_" + ("g" + g)
  {
    assert "_g" == "_" + "g";
  }

  /** The four splits of a span, put together. */
  lemma ParseSpanFrom(s: string, s1: string, s2: string, scope: string, k: string, d: IsoDate,
                      g: string, a: string, b: string, phase: Phase)
    requires SplitLast(s) == Some((s1, b)) && SplitLast(s1) == Some((s2, a)) && SplitLast(s2) == Some((scope, "g" + g))
    requires ParseScope(scope) == Some((k, d))
    requires FromDecimal(g).Some? && FromDecimal(a).Some? && FromDecimal(b).Some?
    ensures ParseSpan(s, phase) ==
            Some(BackfillChunk(k, d, FromDecimal(g).value, FromDecimal(a).value, FromDecimal(b).value, phase))
  {
    assert ("g" + g)[1..] == g;
  }

  lemma SpanRoundTrip(k: string, d: IsoDate, g: nat, a: nat, b: nat, phase: Phase)
    ensures ParseSpan(Span(k, d, g, a, b), phase) == Some(BackfillChunk(k, d, g, a, b, phase))
  {
    var gs, as_, bs := Decimal(g), Decimal(a), Decimal(b);
    var scope := k + "_" + d;
    var s2 := scope + "_g" + gs;
    var s1 := s2 + "_" + as_;
    DigitTail(s1, bs);
    DigitTail(s2, as_);
    GenerationTail(scope, gs);
    ScopeRoundTrip(k, d);
    DecimalRoundTrip(g);
    DecimalRoundTrip(a);
    DecimalRoundTrip(b);
    ParseSpanFrom(s1 + "_" + bs, s1, s2, scope, k, d, gs, as_, bs, phase);
  }

  lemma DigitTail(head: string, digits: string)
    requires forall c :: c in digits ==> IsDigit(c)
    ensures SplitLast(head + "_" + digits) == Some((head, digits))
  {
    NoUnderscore(digits);
    SplitLastJoins(head, digits);
  }

  lemma GenerationTail(scope: string, digits: string)
    requires forall c :: c in digits ==> IsDigit(c)
    ensures SplitLast(scope + "_g" + digits) == Some((scope, "g" + digits))
  {
    NoUnderscore(digits);
    GenerationShape(scope, digits);
    SplitLastJoins(scope, "g" + digits);
  }

  lemma SpanEndsInDigit(k: string, d: IsoDate, g: nat, a: nat, b: nat)
    ensures var s := Span(k, d, g, a, b); |s| >= 5 && IsDigit(s[|s| - 1])
  {
    var s := Span(k, d, g, a, b);
    assert s[|s| - 1] == Decimal(b)[|Decimal(b)| - 1];
  }

  lemma BackfillRoundTrip(k: string, d: IsoDate, g: nat, a: nat, b: nat, phase: Phase)
    ensures Parse(BackfillChunkDedupToken(k, d, g, a, b, phase)) == Some(BackfillChunk(k, d, g, a, b, phase))
  {
    var span := Span(k, d, g, a, b);
    SpanRoundTrip(k, d, g, a, b, phase);
    SpanEndsInDigit(k, d, g, a, b);
    BackfillBody(span, phase);
  }

  lemma BackfillPrefix(rest: string)
    ensures Parse("BACKFILL_" + rest) == ParseBackfill(rest)
  {
    var s := "BACKFILL_" + rest;
    assert s[0] == 'B' && s[9..] == rest && s[..9] == "BACKFILL_";
  }

  lemma BackfillBody(span: string, phase: Phase)
    requires |span| >= 5 && IsDigit(span[|span| - 1])
    ensures Parse(if phase.Done? then "BACKFILL_" + span + "_done" else "BACKFILL_" + span) == ParseSpan(span, phase)
  {
    if phase.Done? {
      var body := span + "_done";
      assert "BACKFILL_" + span + "_done" == "BACKFILL_" + body;
      assert body[|body| - 5..] == "_done" && body[..|body| - 5] == span;
      BackfillPrefix(body);
    } else {
      assert span[|span| - 5..][4] != "_done"[4];
      BackfillPrefix(span);
    }
  }

  /** What stands after the last underscore has none. */
  lemma {:induction false} SplitLastEnds(s: string)
    ensures SplitLast(s).Some? ==> '_' !in SplitLast(s).value.1
  {
    if s != [] && s[|s| - 1] != '_' { SplitLastEnds(s[..|s| - 1]); }
  }

  /** The thread id, if any, has no underscore. */
  predicate PlainThread(w: Work) { w.ThreadSort? ==> '_' !in w.threadId }

  /** A token can be read back to the unit it was built for, unless it names a thread id with an underscore. */
  lemma TokenRoundTrip(w: Work)
    ensures Parse(Token(w)) == Some(w) <==> PlainThread(w)
  {
    match w
    case ThreadSort(k, d, t) =>
      if '_' !in t { ThreadSortRoundTrip(k, d, t); }
      else { SplitLastEnds(Token(w)[12..]); }
    case BackfillChunk(k, d, g, a, b, p) => BackfillRoundTrip(k, d, g, a, b, p);
    case TaxonomyGen(k) =>
      assert Token(w)[13..] == k;
      assert Token(w)[0] == 'T' && Token(w)[1] == 'A';
    case LifecycleSend(k) =>
      assert Token(w)[10..] == k;
      assert Token(w)[0] == 'L';
  }

  // ------------------------------------- thread ids the format cannot be trusted with

  /** The id holds a whole date between an underscore (or its start) and an underscore. */
  ghost predicate EmbedsDate(t: string) {
    exists i :: EmbedsDateAt(t, i)
  }

  predicate EmbedsDateAt(t: string, i: int) {
    && 0 <= i && i + 24 < |t| && IsIso(t[i..i + 24]) && t[i + 24] == '_'
    && (i == 0 || t[i - 1] == '_')
  }

  /**
   A thread id can be mistaken for a shorter one, under some other inbox key,
   exactly when it embeds a date; under equal lengths it never can.
   */
  lemma ThreadTokensCollideIffDateEmbedded(k: string, d: IsoDate, t: string)
    ensures (exists k': string, d': IsoDate, t': string ::
               |t'| < |t| && ThreadSortDedupToken(k', d', t') == ThreadSortDedupToken(k, d, t)) <==> EmbedsDate(t)
  {
    if k': string, d': IsoDate, t': string :|
      |t'| < |t| && ThreadSortDedupToken(k', d', t') == ThreadSortDedupToken(k, d, t)
    {
      CollisionEmbedsDate(k, d, t, k', d', t');
    }
    if i :| EmbedsDateAt(t, i) {
      var k', d', t' := EmbeddedDateCollides(k, d, t, i);
    }
  }

  lemma EmbeddedDateCollides(k: string, d: IsoDate, t: string, i: int) returns (k': string, d': IsoDate, t': string)
    requires EmbedsDateAt(t, i)
    ensures |t'| < |t| && ThreadSortDedupToken(k', d', t') == ThreadSortDedupToken(k, d, t)
  {
    d', t' := t[i..i + 24], t[i + 25..];
    assert t == t[..i] + (d' + "_" + t');
    if i == 0 {
      k' := k + "_" + d;
      assert "THREAD_SORT_" + k' == "THREAD_SORT_" + k + "_" + d;
    } else {
      var x := t[..i - 1];
      k' := k + "_" + d + "_" + x;
      assert t[..i] == x + "_";
      assert "THREAD_SORT_" + k' == "THREAD_SORT_" + k + "_" + d + "_" + x;
      var head := "THREAD_SORT_" + k + "_" + d + "_";
      assert head + t == head + x + "_" + d' + "_" + t';
    }
  }

  lemma CollisionEmbedsDate(k: string, d: IsoDate, t: string, k': string, d': IsoDate, t': string)
    requires |t'| < |t| && ThreadSortDedupToken(k', d', t') == ThreadSortDedupToken(k, d, t)
    ensures EmbedsDate(t)
  {
    var s := ThreadSortDedupToken(k, d, t);
    var p, p' := |s| - |t| - 1, |s| - |t'| - 1;
    assert s[p] == '_' && s[p + 1..] == t;
    assert s == ThreadSortDedupToken(k', d', t');
    assert s[p'] == '_' && s[p' - 24..p'] == d' && s[p' - 25] == '_';
    NoUnderscore(d');
    assert forall j :: p' - 24 <= j < p' ==> s[j] == d'[j - (p' - 24)] && d'[j - (p' - 24)] in d';
    assert p <= p' - 25;
    var i := p' - 24 - (p + 1);
    assert t[i..i + 24] == d';
    assert t[i + 24] == s[p'];
    if i > 0 { assert t[i - 1] == s[p' - 25]; }
    assert EmbedsDateAt(t, i);
  }

  /** Thread ids of one length never collide, whatever they hold. */
  lemma SameLengthThreadTokens(k: string, d: IsoDate, t: string, k': string, d': IsoDate, t': string)
    requires |t'| == |t| && ThreadSortDedupToken(k', d', t') == ThreadSortDedupToken(k, d, t)
    ensures k == k' && d == d' && t == t'
  {
    var s := ThreadSortDedupToken(k, d, t);
    var n := |s| - |t|;
    assert s[n..] == t && s[n..] == t';
    assert s[n - 25..n - 1] == d && s[n - 25..n - 1] == d';
    assert s[12..n - 26] == k && s[12..n - 26] == k';
  }

  // ------------------------------------------------------------------ injectivity

  /** Only the thread builder's tokens begin with "TH". */
  lemma ThreadPrefix(w: Work)
    ensures w.ThreadSort? <==> Token(w)[..2] == "TH"
  {
    match w
    case ThreadSort(k, d, t) => assert Token(w)[0] == 'T' && Token(w)[1] == 'H';
    case BackfillChunk(k, d, g, a, b, p) => assert Token(w)[0] == 'B';
    case TaxonomyGen(k) => assert Token(w)[0] == 'T' && Token(w)[1] == 'A';
    case LifecycleSend(k) => assert Token(w)[0] == 'L';
  }

  /** The unit names no thread id that holds a whole date. */
  ghost predicate DateFree(w: Work) { w.ThreadSort? ==> !EmbedsDate(w.threadId) }

  /**
   Equal tokens mean one unit of work, across all four builders and every
   argument, unless a thread id holds a whole date.
   */
  lemma TokensAreInjective(v: Work, w: Work)
    requires DateFree(v) && DateFree(w) && Token(v) == Token(w)
    ensures v == w
  {
    ThreadPrefix(v);
    ThreadPrefix(w);
    if v.ThreadSort? {
      ThreadTokensCollideIffDateEmbedded(v.inboxKey, v.windowStart, v.threadId);
      ThreadTokensCollideIffDateEmbedded(w.inboxKey, w.windowStart, w.threadId);
      assert |v.threadId| == |w.threadId|;
      SameLengthThreadTokens(v.inboxKey, v.windowStart, v.threadId, w.inboxKey, w.windowStart, w.threadId);
    } else {
      TokenRoundTrip(v);
      TokenRoundTrip(w);
    }
  }
}
