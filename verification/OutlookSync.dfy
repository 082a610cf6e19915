/**
 Incremental sync of an Outlook mailbox from two delta cursors, inbox and Sent
 Items, against a provider whose feeds only grow. Every request may meet new
 mail, answer with a page of any size, end the chain early, or fail.
 */
module OutlookSync {
  import opened Prelude

  // ------------------------------------------------------------------- cursors

  datatype Cursor = Cursor(inbox: string, sent: Option<string>)

  /** What parsing a JSON object shows of the two fields; a field that is no string shows as `None`. */
  datatype Parsed = Parsed(inbox: Option<string>, sent: Option<string>)

  /** JSON of the host: `parse` is `None` when it throws. */
  datatype Json = Json(stringify: Cursor -> string, parse: string -> Option<Parsed>)

  ghost predicate Faithful(j: Json) {
    forall c :: StartsWithBrace(j.stringify(c)) && j.parse(j.stringify(c)) == Some(Parsed(Some(c.inbox), c.sent))
  }

  predicate StartsWithBrace(s: string) { s != "" && s[0] == '{' }

  /** White space and line ends, as the host's trimming knows them. */
  predicate IsSpace(c: char) {
    || c == ' ' || '\U{0009}' <= c <= '\U{000D}' || c == '\U{00A0}' || c == '\U{1680}'
    || '\U{2000}' <= c <= '\U{200A}' || c == '\U{2028}' || c == '\U{2029}'
    || c == '\U{202F}' || c == '\U{205F}' || c == '\U{3000}' || c == '\U{FEFF}'
  }

  function TrimStart(s: string): string {
    if s != "" && IsSpace(s[0]) then TrimStart(s[1..]) else s
  }

  function ParseOutlookCursor(j: Json, cursor: string): Cursor {
    if !StartsWithBrace(TrimStart(cursor)) then Cursor(cursor, None)
    else match j.parse(cursor)
      case None => Cursor(cursor, None)
      case Some(p) =>
        if p.inbox == None || p.inbox.value == "" then Cursor(cursor, None)
        else if p.sent.Some? && p.sent.value != "" then Cursor(p.inbox.value, p.sent)
        else Cursor(p.inbox.value, None)
  }

  function SerializeOutlookCursor(j: Json, c: Cursor): string { j.stringify(c) }

  /** Parsing undoes serializing exactly for cursors without empty links. */
  lemma CursorRoundTripIff(j: Json, c: Cursor)
    requires Faithful(j)
    ensures ParseOutlookCursor(j, SerializeOutlookCursor(j, c)) == c <==> c.inbox != "" && c.sent != Some("")
  {
    assert StartsWithBrace(j.stringify(c));
    assert TrimStart(j.stringify(c)) == j.stringify(c);
    assert j.parse(j.stringify(c)) == Some(Parsed(Some(c.inbox), c.sent));
  }

  // ------------------------------------------------------------------ the provider

  /** A change; an absent id or conversation is empty. */
  datatype Entry = Entry(removed: bool, id: string, conversationId: string)

  /** An append-only change log, and the position every link handed out stands for. */
  datatype Feed = Feed(log: seq<Entry>, links: map<string, nat>)

  datatype Folder = Inbox | SentItems

  datatype Mailbox = Mailbox(inbox: Feed, sent: Feed)

  /** How the provider meets one request: new mail, then a page or a failure. Absent links are empty. */
  datatype Reply = Reply(inboxArrivals: seq<Entry>, sentArrivals: seq<Entry>, fails: bool,
                         take: nat, deltaLink: string, nextLink: string)

  datatype Page = Page(value: seq<Entry>, deltaLink: string, nextLink: string)

  /** `$deltatoken=latest`: it may enumerate the folder, or skip straight to its end. */
  const LATEST := "delta?$deltatoken=latest"

  ghost predicate ValidFeed(f: Feed) {
    && "" !in f.links && LATEST in f.links && f.links[LATEST] == 0
    && forall l :: l in f.links ==> f.links[l] <= |f.log|
  }

  ghost predicate Valid(m: Mailbox) { ValidFeed(m.inbox) && ValidFeed(m.sent) }

  function FeedOf(m: Mailbox, folder: Folder): Feed { if folder.Inbox? then m.inbox else m.sent }

  function WithFeed(m: Mailbox, folder: Folder, f: Feed): Mailbox {
    if folder.Inbox? then m.(inbox := f) else m.(sent := f)
  }

  function Arrive(m: Mailbox, r: Reply): Mailbox {
    Mailbox(m.inbox.(log := m.inbox.log + r.inboxArrivals), m.sent.(log := m.sent.log + r.sentArrivals))
  }

  function Min(a: nat, b: nat): nat { if a <= b then a else b }

  /** A link is absent, new, or already stands for this position. */
  predicate Linkable(links: map<string, nat>, link: string, q: nat) { link in links ==> links[link] == q }

  function AddLink(links: map<string, nat>, link: string, q: nat): map<string, nat> {
    if link == "" then links else links[link := q]
  }

  function Get(m: Mailbox, folder: Folder, url: string, r: Reply): (Mailbox, Option<Page>) {
    var m1 := Arrive(m, r);
    var f := FeedOf(m1, folder);
    if r.fails || url !in f.links || f.links[url] > |f.log| then (m1, None)
    else
      var p := f.links[url];
      var q := Min(p + r.take, |f.log|);
      if !Linkable(f.links, r.deltaLink, q) || !Linkable(f.links, r.nextLink, q) then (m1, None)
      else
        (WithFeed(m1, folder, f.(links := AddLink(AddLink(f.links, r.deltaLink, q), r.nextLink, q))),
         Some(Page(f.log[p..q], r.deltaLink, r.nextLink)))
  }

  /** The mailbox may gain mail and links; nothing is lost or moves. */
  ghost predicate FeedGrows(f: Feed, g: Feed) {
    f.log <= g.log && forall l :: l in f.links ==> l in g.links && g.links[l] == f.links[l]
  }

  ghost predicate Grows(m: Mailbox, n: Mailbox) { FeedGrows(m.inbox, n.inbox) && FeedGrows(m.sent, n.sent) }

  lemma GetGrows(m: Mailbox, folder: Folder, url: string, r: Reply)
    requires Valid(m)
    ensures Valid(Get(m, folder, url, r).0) && Grows(m, Get(m, folder, url, r).0)
  {
  }

  /** A page is the stretch of the log from its link to the position its own links stand for. */
  ghost predicate IsStretch(f: Feed, g: Feed, url: string, page: Page) {
    && url in f.links
    && var p, q := f.links[url], f.links[url] + |page.value|;
       && q <= |g.log| && page.value == g.log[p..q]
       && (page.deltaLink != "" ==> page.deltaLink in g.links && g.links[page.deltaLink] == q)
       && (page.nextLink != "" ==> page.nextLink in g.links && g.links[page.nextLink] == q)
  }

  lemma GetIsStretch(m: Mailbox, folder: Folder, url: string, r: Reply)
    requires Valid(m) && Get(m, folder, url, r).1.Some?
    ensures IsStretch(FeedOf(m, folder), FeedOf(Get(m, folder, url, r).0, folder), url, Get(m, folder, url, r).1.value)
  {
  }

  // --------------------------------------------------------------- one delta chain

  datatype Walked = Walked(entries: seq<Entry>, newCursor: string)

  /** Follow a chain to its end: the entries of all its pages, and where to resume. */
  function Walk(m: Mailbox, folder: Folder, url: string, start: string, script: seq<Reply>): (Mailbox, Option<Walked>, seq<Reply>)
    decreases |script|
  {
    if script == [] then (m, None, [])
    else
      var (m1, page) := Get(m, folder, url, script[0]);
      match page
      case None => (m1, None, script[1..])
      case Some(p) =>
        if p.deltaLink != "" then (m1, Some(Walked(p.value, p.deltaLink)), script[1..])
        else if p.nextLink == "" then (m1, Some(Walked(p.value, start)), script[1..])
        else
          var (m2, rest, script2) := Walk(m1, folder, p.nextLink, start, script[1..]);
          (m2, if rest.Some? then Some(Walked(p.value + rest.value.entries, rest.value.newCursor)) else None, script2)
  }

  /** Follow a chain for its final link only; a chain without one is an error. */
  function Establish(m: Mailbox, folder: Folder, url: string, script: seq<Reply>): (Mailbox, Option<string>, seq<Reply>)
    decreases |script|
  {
    if script == [] then (m, None, [])
    else
      var (m1, page) := Get(m, folder, url, script[0]);
      match page
      case None => (m1, None, script[1..])
      case Some(p) =>
        if p.deltaLink != "" then (m1, Some(p.deltaLink), script[1..])
        else if p.nextLink == "" then (m1, None, script[1..])
        else Establish(m1, folder, p.nextLink, script[1..])
  }

  /** The entries are exactly the log from where the chain began, and the cursor does not pass them. */
  ghost predicate Covers(before: Feed, after: Feed, url: string, start: string, w: Walked) {
    url in before.links && start in before.links &&
    var p := before.links[url];
    && p + |w.entries| <= |after.log| && w.entries == after.log[p..p + |w.entries|]
    && w.newCursor in after.links
    && before.links[start] <= after.links[w.newCursor] <= p + |w.entries|
  }

  lemma {:induction false} WalkCovers(m: Mailbox, folder: Folder, url: string, start: string, script: seq<Reply>)
    requires Valid(m) && start in FeedOf(m, folder).links
    requires url in FeedOf(m, folder).links ==> FeedOf(m, folder).links[start] <= FeedOf(m, folder).links[url]
    ensures
      var (n, w, _) := Walk(m, folder, url, start, script);
      && Valid(n) && Grows(m, n)
      && (w.Some? ==> Covers(FeedOf(m, folder), FeedOf(n, folder), url, start, w.value))
    decreases |script|
  {
    if script != [] {
      GetGrows(m, folder, url, script[0]);
      var (m1, page) := Get(m, folder, url, script[0]);
      if page.Some? {
        GetIsStretch(m, folder, url, script[0]);
        if page.value.deltaLink == "" && page.value.nextLink != "" {
          WalkCovers(m1, folder, page.value.nextLink, start, script[1..]);
          var (n, w, _) := Walk(m1, folder, page.value.nextLink, start, script[1..]);
          if w.Some? {
            Rejoin(FeedOf(m, folder), FeedOf(m1, folder), FeedOf(n, folder), url, start, page.value, w.value);
          }
        }
      }
    }
  }

  /** Two consecutive stretches of the log make one. */
  lemma Rejoin(f: Feed, f1: Feed, g: Feed, url: string, start: string, page: Page, w: Walked)
    requires FeedGrows(f, f1) && FeedGrows(f1, g) && IsStretch(f, f1, url, page) && page.nextLink != ""
    requires start in f.links && Covers(f1, g, page.nextLink, start, w)
    ensures Covers(f, g, url, start, Walked(page.value + w.entries, w.newCursor))
  {
    var p, q := f.links[url], f1.links[page.nextLink];
    assert page.value == g.log[p..q];
    assert page.value + w.entries == g.log[p..q + |w.entries|];
  }

  lemma {:induction false} EstablishGrows(m: Mailbox, folder: Folder, url: string, script: seq<Reply>)
    requires Valid(m)
    ensures
      var (n, c, _) := Establish(m, folder, url, script);
      Valid(n) && Grows(m, n) && (c.Some? ==> c.value in FeedOf(n, folder).links)
    decreases |script|
  {
    if script != [] {
      GetGrows(m, folder, url, script[0]);
      var (m1, page) := Get(m, folder, url, script[0]);
      if page.Some? && page.value.deltaLink == "" && page.value.nextLink != "" {
        EstablishGrows(m1, folder, page.value.nextLink, script[1..]);
      }
    }
  }

  // ------------------------------------------------------------- where a chain ends

  /** The pages the provider serves along a chain, up to its end or to the first failure. */
  function Pages(m: Mailbox, folder: Folder, url: string, script: seq<Reply>): seq<Page>
    decreases |script|
  {
    if script == [] then []
    else
      var (m1, page) := Get(m, folder, url, script[0]);
      if page == None then []
      else [page.value] + if Goes(page.value) then Pages(m1, folder, page.value.nextLink, script[1..]) else []
  }

  /** The chain goes on after this page. */
  predicate Goes(p: Page) { p.deltaLink == "" && p.nextLink != "" }

  predicate Complete(pages: seq<Page>) { pages != [] && !Goes(pages[|pages| - 1]) }

  function Contents(pages: seq<Page>): seq<Entry> {
    if pages == [] then [] else pages[0].value + Contents(pages[1..])
  }

  /** The final link of a chain, empty if it ends without one. */
  function FinalLink(pages: seq<Page>): string
    requires pages != []
  {
    pages[|pages| - 1].deltaLink
  }

  lemma CompleteTail(p: Page, rest: seq<Page>)
    requires Goes(p)
    ensures Complete([p] + rest) <==> Complete(rest)
    ensures rest != [] ==> FinalLink([p] + rest) == FinalLink(rest)
  {
    if rest != [] { assert ([p] + rest)[|rest|] == rest[|rest| - 1]; }
  }

  /**
   A walk returns exactly when its chain completes, with the contents of all its
   pages, and its new cursor is the final link; only a chain that ends without
   one leaves the cursor at its start.
   */
  lemma {:induction false} WalkIsItsPages(m: Mailbox, folder: Folder, url: string, start: string, script: seq<Reply>)
    ensures
      var pages := Pages(m, folder, url, script);
      Walk(m, folder, url, start, script).1 ==
        if !Complete(pages) then None
        else Some(Walked(Contents(pages), if FinalLink(pages) != "" then FinalLink(pages) else start))
    decreases |script|
  {
    if script != [] {
      var (m1, page) := Get(m, folder, url, script[0]);
      if page.Some? {
        var rest := if Goes(page.value) then Pages(m1, folder, page.value.nextLink, script[1..]) else [];
        assert ([page.value] + rest)[1..] == rest;
        if Goes(page.value) {
          WalkIsItsPages(m1, folder, page.value.nextLink, start, script[1..]);
          CompleteTail(page.value, rest);
        } else {
          assert Pages(m, folder, url, script) == [page.value];
          assert page.value.value + [] == page.value.value;
        }
      }
    }
  }

  /** An established cursor is the chain's final link, and a chain without one establishes nothing. */
  lemma {:induction false} EstablishIsItsPages(m: Mailbox, folder: Folder, url: string, script: seq<Reply>)
    ensures
      var pages := Pages(m, folder, url, script);
      Establish(m, folder, url, script).1 ==
        if Complete(pages) && FinalLink(pages) != "" then Some(FinalLink(pages)) else None
    ensures Establish(m, folder, url, script).0 == Walk(m, folder, url, url, script).0
    ensures forall start :: Walk(m, folder, url, start, script).0 == Walk(m, folder, url, url, script).0
    decreases |script|
  {
    if script != [] {
      var (m1, page) := Get(m, folder, url, script[0]);
      if page.Some? {
        var rest := if Goes(page.value) then Pages(m1, folder, page.value.nextLink, script[1..]) else [];
        if Goes(page.value) {
          EstablishIsItsPages(m1, folder, page.value.nextLink, script[1..]);
          CompleteTail(page.value, rest);
        } else {
          assert Pages(m, folder, url, script) == [page.value];
        }
      }
    }
  }

  /** A chain's final link stands right behind the entries of its pages. */
  lemma {:induction false} FinalLinkStandsAtTheEnd(m: Mailbox, folder: Folder, url: string, script: seq<Reply>)
    requires Valid(m)
    ensures
      var pages := Pages(m, folder, url, script);
      var n := Walk(m, folder, url, url, script).0;
      Complete(pages) && FinalLink(pages) != "" ==>
        && url in FeedOf(m, folder).links && FinalLink(pages) in FeedOf(n, folder).links
        && FeedOf(n, folder).links[FinalLink(pages)] == FeedOf(m, folder).links[url] + |Contents(pages)|
    decreases |script|
  {
    if script != [] {
      GetGrows(m, folder, url, script[0]);
      var (m1, page) := Get(m, folder, url, script[0]);
      if page.Some? {
        GetIsStretch(m, folder, url, script[0]);
        var rest := if Goes(page.value) then Pages(m1, folder, page.value.nextLink, script[1..]) else [];
        assert ([page.value] + rest)[1..] == rest;
        if Goes(page.value) {
          FinalLinkStandsAtTheEnd(m1, folder, page.value.nextLink, script[1..]);
          EstablishIsItsPages(m1, folder, page.value.nextLink, script[1..]);
          CompleteTail(page.value, rest);
        } else {
          assert Pages(m, folder, url, script) == [page.value];
        }
      }
    }
  }

  /** A walk whose chain ends with a link moves the cursor past everything it walked, and no further. */
  lemma WalkAdvances(m: Mailbox, folder: Folder, url: string, script: seq<Reply>)
    requires Valid(m) && url in FeedOf(m, folder).links && Complete(Pages(m, folder, url, script))
    ensures
      var pages := Pages(m, folder, url, script);
      var (n, w, _) := Walk(m, folder, url, url, script);
      && w.Some? && w.value.newCursor in FeedOf(n, folder).links
      && (if FinalLink(pages) != ""
          then FeedOf(n, folder).links[w.value.newCursor] == FeedOf(m, folder).links[url] + |w.value.entries|
          else w.value.newCursor == url)
  {
    WalkIsItsPages(m, folder, url, url, script);
    WalkCovers(m, folder, url, url, script);
    FinalLinkStandsAtTheEnd(m, folder, url, script);
  }

  // --------------------------------------------------------------- one sync call

  datatype Changes = Changes(changed: set<string>, removed: set<string>, sentOnly: set<string>, newCursor: string)

  function Conversations(es: seq<Entry>): set<string> {
    set e | e in es && !e.removed && e.conversationId != "" :: e.conversationId
  }

  function Removals(es: seq<Entry>): set<string> {
    set e | e in es && e.removed && e.id != "" :: e.id
  }

  function ListChanges(j: Json, m: Mailbox, cursor: string, script: seq<Reply>): (Mailbox, Option<Changes>) {
    var stored := ParseOutlookCursor(j, cursor);
    var (m1, inbox, script1) := Walk(m, Inbox, stored.inbox, stored.inbox, script);
    if inbox == None then (m1, None)
    else if stored.sent == None then
      var (m2, sent, _) := Establish(m1, SentItems, LATEST, script1);
      (m2, if sent == None then None
           else Some(Changes(Conversations(inbox.value.entries), Removals(inbox.value.entries), {},
                             SerializeOutlookCursor(j, Cursor(inbox.value.newCursor, sent)))))
    else
      var (m2, sent, _) := Walk(m1, SentItems, stored.sent.value, stored.sent.value, script1);
      (m2, if sent == None then None
           else
             var i, s := inbox.value.entries, sent.value.entries;
             Some(Changes(Conversations(i) + Conversations(s), Removals(i) + Removals(s),
                          Conversations(s) - Conversations(i),
                          SerializeOutlookCursor(j, Cursor(inbox.value.newCursor, Some(sent.value.newCursor))))))
  }

  class GraphClient {
    const json: Json
    var mailbox: Mailbox
    var script: seq<Reply>

    constructor (json: Json, mailbox: Mailbox, script: seq<Reply>)
      ensures this.json == json && this.mailbox == mailbox && this.script == script
    {
      this.json, this.mailbox, this.script := json, mailbox, script;
    }

    /** One authenticated GET; `None` when it throws. */
    method GraphGet(folder: Folder, url: string) returns (page: Option<Page>)
      modifies this
      ensures old(script) == [] ==> page == None && mailbox == old(mailbox) && script == []
      ensures old(script) != [] ==> (mailbox, page) == Get(old(mailbox), folder, url, old(script)[0]) && script == old(script)[1..]
    {
      if script == [] { return None; }
      var (m, p) := Get(mailbox, folder, url, script[0]);
      mailbox, script, page := m, script[1..], p;
    }

    method WalkDelta(folder: Folder, startUrl: string) returns (w: Option<Walked>)
      modifies this
      ensures (mailbox, w, script) == Walk(old(mailbox), folder, startUrl, startUrl, old(script))
    {
      var entries: seq<Entry> := [];
      var url, newCursor := startUrl, startUrl;
      ghost var whole := Walk(mailbox, folder, startUrl, startUrl, script);
      PrependNothing(whole.1);
      while true
        invariant newCursor == startUrl
        invariant var rest := Walk(mailbox, folder, url, startUrl, script);
          whole == (rest.0, Prepend(entries, rest.1), rest.2)
        decreases |script|
      {
        if script == [] { return None; }
        var page := GraphGet(folder, url);
        if page == None { return None; }
        ghost var before := entries;
        entries := entries + page.value.value;
        if page.value.deltaLink != "" {
          newCursor := page.value.deltaLink;
          return Some(Walked(entries, newCursor));
        }
        if page.value.nextLink == "" { return Some(Walked(entries, newCursor)); }
        url := page.value.nextLink;
        PrependTwice(before, page.value.value, Walk(mailbox, folder, url, startUrl, script).1);
      }
    }

    method EstablishDeltaCursor(folder: Folder) returns (cursor: Option<string>)
      modifies this
      ensures (mailbox, cursor, script) == Establish(old(mailbox), folder, LATEST, old(script))
    {
      var url := LATEST;
      while true
        invariant Establish(mailbox, folder, url, script) == Establish(old(mailbox), folder, LATEST, old(script))
        decreases |script|
      {
        if script == [] { return None; }
        var page := GraphGet(folder, url);
        if page == None { return None; }
        if page.value.deltaLink != "" { return Some(page.value.deltaLink); }
        if page.value.nextLink == "" { return None; }
        url := page.value.nextLink;
      }
    }

    method ListChangesSince(cursor: string) returns (r: Option<Changes>)
      modifies this
      ensures (mailbox, r) == ListChanges(json, old(mailbox), cursor, old(script))
    {
      var stored := ParseOutlookCursor(json, cursor);
      var inbox := WalkDelta(Inbox, stored.inbox);
      if inbox == None { return None; }
      var seen, removed, candidates := Collect(inbox.value.entries, {}, {});
      assert seen == Conversations(inbox.value.entries) && removed == Removals(inbox.value.entries);
      var sentOnly: set<string> := {};
      var sentCursor: string;
      if stored.sent == None {
        var established := EstablishDeltaCursor(SentItems);
        if established == None { return None; }
        sentCursor := established.value;
      } else {
        var sent := WalkDelta(SentItems, stored.sent.value);
        if sent == None { return None; }
        sentCursor := sent.value.newCursor;
        seen, removed, sentOnly := Collect(sent.value.entries, seen, removed);
      }
      r := Some(Changes(seen, removed, sentOnly,
                        SerializeOutlookCursor(json, Cursor(inbox.value.newCursor, Some(sentCursor)))));
    }
  }

  function Prepend(entries: seq<Entry>, w: Option<Walked>): Option<Walked> {
    if w.Some? then Some(Walked(entries + w.value.entries, w.value.newCursor)) else None
  }

  lemma PrependNothing(w: Option<Walked>)
    ensures Prepend([], w) == w
  {
    if w.Some? { assert [] + w.value.entries == w.value.entries; }
  }

  lemma PrependTwice(a: seq<Entry>, b: seq<Entry>, w: Option<Walked>)
    ensures Prepend(a, Prepend(b, w)) == Prepend(a + b, w)
  {
    if w.Some? { assert a + (b + w.value.entries) == (a + b) + w.value.entries; }
  }

  /** Sort one chain's entries into threads and removals; `first` are the threads it is first to name. */
  method Collect(entries: seq<Entry>, seen0: set<string>, removed0: set<string>)
    returns (seen: set<string>, removed: set<string>, first: set<string>)
    ensures seen == seen0 + Conversations(entries)
    ensures removed == removed0 + Removals(entries)
    ensures first == Conversations(entries) - seen0
  {
    seen, removed, first := seen0, removed0, {};
    for i := 0 to |entries|
      invariant seen == seen0 + Conversations(entries[..i])
      invariant removed == removed0 + Removals(entries[..i])
      invariant first == Conversations(entries[..i]) - seen0
    {
      var e := entries[i];
      assert entries[..i + 1] == entries[..i] + [e];
      if e.removed {
        if e.id != "" { removed := removed + {e.id}; }
      } else if e.conversationId != "" {
        if e.conversationId !in seen { first := first + {e.conversationId}; }
        seen := seen + {e.conversationId};
      }
    }
    assert entries[..|entries|] == entries;
  }

  // ------------------------------------------------------------- runs of sync calls

  /** The entry was reported: its removal, or its thread, is among those returned. */
  predicate Reported(e: Entry, changed: set<string>, removed: set<string>) {
    if e.removed then e.id == "" || e.id in removed else e.conversationId == "" || e.conversationId in changed
  }

  ghost predicate AllReported(log: seq<Entry>, from: nat, to: nat, changed: set<string>, removed: set<string>) {
    forall x :: from <= x < to && x < |log| ==> Reported(log[x], changed, removed)
  }

  /** Both links of the stored cursor stand for positions the provider knows. */
  ghost predicate Knows(m: Mailbox, c: Cursor) {
    c.inbox in m.inbox.links && (c.sent.Some? ==> c.sent.value in m.sent.links)
  }

  /**
   Between the stored cursor and the next nothing is lost: neither folder's link
   moves back, and every entry a link moves past is among those reported.
   */
  ghost predicate Covered(m: Mailbox, c: Cursor, n: Mailbox, c': Cursor, changed: set<string>, removed: set<string>) {
    && Knows(m, c) && Knows(n, c')
    && m.inbox.links[c.inbox] <= n.inbox.links[c'.inbox]
    && AllReported(n.inbox.log, m.inbox.links[c.inbox], n.inbox.links[c'.inbox], changed, removed)
    && (c.sent.Some? ==>
          && c'.sent.Some? && m.sent.links[c.sent.value] <= n.sent.links[c'.sent.value]
          && AllReported(n.sent.log, m.sent.links[c.sent.value], n.sent.links[c'.sent.value], changed, removed))
  }

  lemma CoveredTwice(m: Mailbox, c: Cursor, n: Mailbox, d: Cursor, o: Mailbox, e: Cursor,
                     changed: set<string>, removed: set<string>, changed': set<string>, removed': set<string>)
    requires Covered(m, c, n, d, changed, removed) && Covered(n, d, o, e, changed', removed')
    requires Valid(n) && Grows(n, o)
    ensures Covered(m, c, o, e, changed + changed', removed + removed')
  {
  }

  lemma NothingToCover(m: Mailbox, c: Cursor, n: Mailbox)
    requires Grows(m, n) && Knows(m, c)
    ensures Covered(m, c, n, c, {}, {})
  {
  }

  /** One call reports every entry its new cursor moves past, in both folders. */
  lemma CallReportsWhatItPasses(j: Json, m: Mailbox, cursor: string, script: seq<Reply>)
    requires Faithful(j) && Valid(m) && Knows(m, ParseOutlookCursor(j, cursor))
    ensures
      var (n, r) := ListChanges(j, m, cursor, script);
      && Valid(n) && Grows(m, n)
      && (r.Some? ==>
            var c, c' := ParseOutlookCursor(j, cursor), ParseOutlookCursor(j, r.value.newCursor);
            c'.sent.Some? && Covered(m, c, n, c', r.value.changed, r.value.removed))
  {
    var c := ParseOutlookCursor(j, cursor);
    WalkCovers(m, Inbox, c.inbox, c.inbox, script);
    var (m1, inbox, script1) := Walk(m, Inbox, c.inbox, c.inbox, script);
    if inbox.Some? {
      if c.sent == None {
        EstablishGrows(m1, SentItems, LATEST, script1);
        var (m2, sent, _) := Establish(m1, SentItems, LATEST, script1);
        if sent.Some? {
          CursorRoundTripIff(j, Cursor(inbox.value.newCursor, sent));
          StretchReported(m, m1, m2, Inbox, c.inbox, inbox.value, Conversations(inbox.value.entries), Removals(inbox.value.entries));
        }
      } else {
        WalkCovers(m1, SentItems, c.sent.value, c.sent.value, script1);
        var (m2, sent, _) := Walk(m1, SentItems, c.sent.value, c.sent.value, script1);
        if sent.Some? {
          CursorRoundTripIff(j, Cursor(inbox.value.newCursor, Some(sent.value.newCursor)));
          var i, s := inbox.value.entries, sent.value.entries;
          StretchReported(m, m1, m2, Inbox, c.inbox, inbox.value, Conversations(i) + Conversations(s), Removals(i) + Removals(s));
          StretchReported(m1, m2, m2, SentItems, c.sent.value, sent.value, Conversations(i) + Conversations(s), Removals(i) + Removals(s));
        }
      }
    }
  }

  lemma StretchReported(m: Mailbox, m1: Mailbox, n: Mailbox, folder: Folder, start: string, w: Walked,
                        changed: set<string>, removed: set<string>)
    requires Grows(m1, n) && Covers(FeedOf(m, folder), FeedOf(m1, folder), start, start, w)
    requires Conversations(w.entries) <= changed && Removals(w.entries) <= removed
    ensures AllReported(FeedOf(n, folder).log, FeedOf(m, folder).links[start], FeedOf(n, folder).links[w.newCursor], changed, removed)
  {
    var p := FeedOf(m, folder).links[start];
    var log := FeedOf(n, folder).log;
    forall x | p <= x < FeedOf(n, folder).links[w.newCursor] && x < |log| ensures Reported(log[x], changed, removed) {
      assert log[x] == w.entries[x - p];
      assert w.entries[x - p] in w.entries;
    }
  }

  datatype Outcome = Outcome(mailbox: Mailbox, cursor: string, changed: set<string>, removed: set<string>)

  /** A run of calls: a call that throws leaves the stored cursor alone. */
  function Sync(j: Json, m: Mailbox, cursor: string, scripts: seq<seq<Reply>>): Outcome
    decreases |scripts|
  {
    if scripts == [] then Outcome(m, cursor, {}, {})
    else
      var (m1, r) := ListChanges(j, m, cursor, scripts[0]);
      match r
      case None => Sync(j, m1, cursor, scripts[1..])
      case Some(c) =>
        var rest := Sync(j, m1, c.newCursor, scripts[1..]);
        rest.(changed := c.changed + rest.changed, removed := c.removed + rest.removed)
  }

  /**
   Over any run of calls, some failing, with mail arriving all along: every inbox
   entry between the first stored cursor and the last is reported by some call,
   and so is every Sent Items entry once a Sent Items cursor is stored.
   */
  lemma {:induction false} NoChangeIsSkipped(j: Json, m: Mailbox, cursor: string, scripts: seq<seq<Reply>>)
    requires Faithful(j) && Valid(m) && Knows(m, ParseOutlookCursor(j, cursor))
    ensures
      var o := Sync(j, m, cursor, scripts);
      && Valid(o.mailbox) && Grows(m, o.mailbox)
      && Covered(m, ParseOutlookCursor(j, cursor), o.mailbox, ParseOutlookCursor(j, o.cursor), o.changed, o.removed)
    decreases |scripts|
  {
    var c := ParseOutlookCursor(j, cursor);
    if scripts == [] {
      NothingToCover(m, c, m);
    } else {
      CallReportsWhatItPasses(j, m, cursor, scripts[0]);
      var (m1, r) := ListChanges(j, m, cursor, scripts[0]);
      var next := if r.Some? then r.value.newCursor else cursor;
      var changed, removed := if r.Some? then r.value.changed else {}, if r.Some? then r.value.removed else {};
      if r == None { NothingToCover(m, c, m1); }
      NoChangeIsSkipped(j, m1, next, scripts[1..]);
      var o := Sync(j, m1, next, scripts[1..]);
      CoveredTwice(m, c, m1, ParseOutlookCursor(j, next), o.mailbox, ParseOutlookCursor(j, o.cursor),
                   changed, removed, o.changed, o.removed);
      assert {} + o.changed == o.changed && {} + o.removed == o.removed;
    }
  }

  // ------------------------------------------------------------- exactly what is reported

  ghost function InboxPages(j: Json, m: Mailbox, cursor: string, script: seq<Reply>): seq<Page> {
    Pages(m, Inbox, ParseOutlookCursor(j, cursor).inbox, script)
  }

  /** Where the Sent Items chain of a call starts. */
  function SentStart(c: Cursor): string { if c.sent.Some? then c.sent.value else LATEST }

  ghost function SentPages(j: Json, m: Mailbox, cursor: string, script: seq<Reply>): seq<Page> {
    var c := ParseOutlookCursor(j, cursor);
    var (m1, _, script1) := Walk(m, Inbox, c.inbox, c.inbox, script);
    Pages(m1, SentItems, SentStart(c), script1)
  }

  /** Some entry of the stretch names the thread. */
  ghost predicate NamesThread(log: seq<Entry>, from: nat, to: nat, t: string) {
    t != "" && exists x :: from <= x < to && x < |log| && !log[x].removed && log[x].conversationId == t
  }

  ghost predicate NamesRemoval(log: seq<Entry>, from: nat, to: nat, id: string) {
    id != "" && exists x :: from <= x < to && x < |log| && log[x].removed && log[x].id == id
  }

  lemma ContentsName(log: seq<Entry>, from: nat, es: seq<Entry>)
    requires from + |es| <= |log| && es == log[from..from + |es|]
    ensures forall t :: t in Conversations(es) <==> NamesThread(log, from, from + |es|, t)
    ensures forall id :: id in Removals(es) <==> NamesRemoval(log, from, from + |es|, id)
  {
    forall t ensures t in Conversations(es) <==> NamesThread(log, from, from + |es|, t) {
      if e :| e in es && !e.removed && e.conversationId != "" && e.conversationId == t {
        var x :| 0 <= x < |es| && es[x] == e;
        assert log[from + x] == e;
      }
      if x :| from <= x < from + |es| && !log[x].removed && log[x].conversationId == t { assert es[x - from] in es; }
    }
    forall id ensures id in Removals(es) <==> NamesRemoval(log, from, from + |es|, id) {
      if e :| e in es && e.removed && e.id != "" && e.id == id {
        var x :| 0 <= x < |es| && es[x] == e;
        assert log[from + x] == e;
      }
      if x :| from <= x < from + |es| && log[x].removed && log[x].id == id { assert es[x - from] in es; }
    }
  }

  /** A call returns exactly when both its chains complete, and on a first Sent Items cursor only if that chain has a link. */
  lemma CallReturnsIff(j: Json, m: Mailbox, cursor: string, script: seq<Reply>)
    ensures ListChanges(j, m, cursor, script).1.Some? <==>
      && Complete(InboxPages(j, m, cursor, script)) && Complete(SentPages(j, m, cursor, script))
      && (ParseOutlookCursor(j, cursor).sent.Some? || FinalLink(SentPages(j, m, cursor, script)) != "")
  {
    var c := ParseOutlookCursor(j, cursor);
    WalkIsItsPages(m, Inbox, c.inbox, c.inbox, script);
    var (m1, _, script1) := Walk(m, Inbox, c.inbox, c.inbox, script);
    WalkIsItsPages(m1, SentItems, SentStart(c), SentStart(c), script1);
    EstablishIsItsPages(m1, SentItems, LATEST, script1);
  }

  /** The stretch of a folder's log one call walks, and where that leaves the link it stores. */
  ghost predicate Legged(m: Mailbox, n: Mailbox, folder: Folder, start: string, pages: seq<Page>, link: string) {
    && pages != [] && start in FeedOf(m, folder).links && link in FeedOf(n, folder).links
    && var p, es := FeedOf(m, folder).links[start], Contents(pages);
       && p + |es| <= |FeedOf(n, folder).log| && es == FeedOf(n, folder).log[p..p + |es|]
       && (FinalLink(pages) != "" ==> FeedOf(n, folder).links[link] == p + |es|)
       && (FinalLink(pages) == "" ==> link == start)
  }

  lemma WalkIsLegged(m: Mailbox, m1: Mailbox, n: Mailbox, folder: Folder, start: string, script: seq<Reply>)
    requires Valid(m) && start in FeedOf(m, folder).links && m1 == Walk(m, folder, start, start, script).0 && Grows(m1, n)
    requires Complete(Pages(m, folder, start, script))
    ensures Walk(m, folder, start, start, script).1.Some?
    ensures Walk(m, folder, start, start, script).1.value.entries == Contents(Pages(m, folder, start, script))
    ensures Legged(m, n, folder, start, Pages(m, folder, start, script), Walk(m, folder, start, start, script).1.value.newCursor)
  {
    WalkIsItsPages(m, folder, start, start, script);
    WalkCovers(m, folder, start, start, script);
    WalkAdvances(m, folder, start, script);
    LeggedLater(m, m1, n, folder, start, Pages(m, folder, start, script), Walk(m, folder, start, start, script).1.value.newCursor);
  }

  /** Mail and links that come later change nothing about a leg. */
  lemma LeggedLater(m: Mailbox, m1: Mailbox, n: Mailbox, folder: Folder, start: string, pages: seq<Page>, link: string)
    requires Grows(m1, n) && Legged(m, m1, folder, start, pages, link)
    ensures Legged(m, n, folder, start, pages, link)
  {
    var p, q := FeedOf(m, folder).links[start], FeedOf(m, folder).links[start] + |Contents(pages)|;
    assert FeedOf(m1, folder).log[p..q] == FeedOf(n, folder).log[p..q];
  }

  /** What a call has done that walked both folders: its two legs, and its report. */
  ghost predicate Done(m: Mailbox, c: Cursor, n: Mailbox, d: Cursor, r: Changes, i: seq<Page>, s: seq<Page>) {
    && c.sent.Some? && d.sent.Some?
    && Legged(m, n, Inbox, c.inbox, i, d.inbox) && Legged(m, n, SentItems, c.sent.value, s, d.sent.value)
    && r.changed == Conversations(Contents(i)) + Conversations(Contents(s))
    && r.removed == Removals(Contents(i)) + Removals(Contents(s))
    && r.sentOnly == Conversations(Contents(s)) - Conversations(Contents(i))
  }

  /** Two walks in a row. */
  lemma TwoWalks(m: Mailbox, c: Cursor, script: seq<Reply>)
    requires Valid(m) && Knows(m, c) && c.sent.Some?
    requires Walk(m, Inbox, c.inbox, c.inbox, script).1.Some?
    requires var (m1, _, script1) := Walk(m, Inbox, c.inbox, c.inbox, script);
      Walk(m1, SentItems, c.sent.value, c.sent.value, script1).1.Some?
    ensures
      var (m1, inbox, script1) := Walk(m, Inbox, c.inbox, c.inbox, script);
      var (n, sent, _) := Walk(m1, SentItems, c.sent.value, c.sent.value, script1);
      var i, s := Pages(m, Inbox, c.inbox, script), Pages(m1, SentItems, c.sent.value, script1);
      && inbox.value.entries == Contents(i) && sent.value.entries == Contents(s)
      && Legged(m, n, Inbox, c.inbox, i, inbox.value.newCursor)
      && Legged(m, n, SentItems, c.sent.value, s, sent.value.newCursor)
  {
    var (m1, inbox, script1) := Walk(m, Inbox, c.inbox, c.inbox, script);
    var (n, sent, _) := Walk(m1, SentItems, c.sent.value, c.sent.value, script1);
    WalkIsItsPages(m, Inbox, c.inbox, c.inbox, script);
    WalkIsItsPages(m1, SentItems, c.sent.value, c.sent.value, script1);
    WalkCovers(m, Inbox, c.inbox, c.inbox, script);
    WalkCovers(m1, SentItems, c.sent.value, c.sent.value, script1);
    WalkIsLegged(m, m1, n, Inbox, c.inbox, script);
    WalkIsLegged(m1, n, n, SentItems, c.sent.value, script1);
    LeggedEarlier(m, m1, n, SentItems, c.sent.value, Pages(m1, SentItems, c.sent.value, script1), sent.value.newCursor);
  }

  /** A known link stands for the same position in an earlier state. */
  lemma LeggedEarlier(m: Mailbox, m1: Mailbox, n: Mailbox, folder: Folder, start: string, pages: seq<Page>, link: string)
    requires Grows(m, m1) && start in FeedOf(m, folder).links && Legged(m1, n, folder, start, pages, link)
    ensures Legged(m, n, folder, start, pages, link)
  {
  }

  /** Both legs of a call that walks Sent Items. */
  lemma CallIsDone(j: Json, m: Mailbox, cursor: string, script: seq<Reply>)
    requires Faithful(j) && Valid(m) && Knows(m, ParseOutlookCursor(j, cursor)) && ParseOutlookCursor(j, cursor).sent.Some?
    requires ListChanges(j, m, cursor, script).1.Some?
    ensures
      var (n, r) := ListChanges(j, m, cursor, script);
      Done(m, ParseOutlookCursor(j, cursor), n, ParseOutlookCursor(j, r.value.newCursor), r.value,
           InboxPages(j, m, cursor, script), SentPages(j, m, cursor, script))
  {
    var c := ParseOutlookCursor(j, cursor);
    TwoWalks(m, c, script);
    var (m1, inbox, script1) := Walk(m, Inbox, c.inbox, c.inbox, script);
    var (n, sent, _) := Walk(m1, SentItems, c.sent.value, c.sent.value, script1);
    NewLinksAreReal(m, n, c, inbox.value.newCursor, sent.value.newCursor, script);
    CursorRoundTripIff(j, Cursor(inbox.value.newCursor, Some(sent.value.newCursor)));
  }

  lemma NewLinksAreReal(m: Mailbox, n: Mailbox, c: Cursor, inbox: string, sent: string, script: seq<Reply>)
    requires Valid(m) && Knows(m, c) && c.sent.Some?
    requires var (m1, i, script1) := Walk(m, Inbox, c.inbox, c.inbox, script);
      var (m2, s, _) := Walk(m1, SentItems, c.sent.value, c.sent.value, script1);
      n == m2 && i.Some? && s.Some? && inbox == i.value.newCursor && sent == s.value.newCursor
    ensures inbox != "" && sent != ""
  {
    var (m1, _, script1) := Walk(m, Inbox, c.inbox, c.inbox, script);
    WalkCovers(m, Inbox, c.inbox, c.inbox, script);
    WalkCovers(m1, SentItems, c.sent.value, c.sent.value, script1);
  }

  /** The report names exactly the threads and removals of these two stretches, and flags what only Sent Items named. */
  ghost predicate ReportsExactly(n: Mailbox, r: Changes, p: nat, q: nat, s: nat, t: nat) {
    && (forall x :: x in r.changed <==> NamesThread(n.inbox.log, p, q, x) || NamesThread(n.sent.log, s, t, x))
    && (forall x :: x in r.removed <==> NamesRemoval(n.inbox.log, p, q, x) || NamesRemoval(n.sent.log, s, t, x))
    && (forall x :: x in r.sentOnly <==> NamesThread(n.sent.log, s, t, x) && !NamesThread(n.inbox.log, p, q, x))
  }

  lemma ReportOfContents(n: Mailbox, r: Changes, p: nat, i: seq<Entry>, s: nat, es: seq<Entry>)
    requires p + |i| <= |n.inbox.log| && i == n.inbox.log[p..p + |i|]
    requires s + |es| <= |n.sent.log| && es == n.sent.log[s..s + |es|]
    requires r.changed == Conversations(i) + Conversations(es) && r.removed == Removals(i) + Removals(es)
    requires r.sentOnly == Conversations(es) - Conversations(i)
    ensures ReportsExactly(n, r, p, p + |i|, s, s + |es|)
  {
    ContentsName(n.inbox.log, p, i);
    ContentsName(n.sent.log, s, es);
  }

  /** The stretches a call has walked, and its exact report of them. */
  ghost predicate Exact(m: Mailbox, c: Cursor, n: Mailbox, d: Cursor, r: Changes, i: seq<Page>, s: seq<Page>) {
    && c.sent.Some? && d.sent.Some?
    && Legged(m, n, Inbox, c.inbox, i, d.inbox) && Legged(m, n, SentItems, c.sent.value, s, d.sent.value)
    && var p, t := m.inbox.links[c.inbox], m.sent.links[c.sent.value];
       ReportsExactly(n, r, p, p + |Contents(i)|, t, t + |Contents(s)|)
  }

  lemma DoneIsExact(m: Mailbox, c: Cursor, n: Mailbox, d: Cursor, r: Changes, i: seq<Page>, s: seq<Page>)
    requires Done(m, c, n, d, r, i, s)
    ensures Exact(m, c, n, d, r, i, s)
  {
    ReportOfContents(n, r, m.inbox.links[c.inbox], Contents(i), m.sent.links[c.sent.value], Contents(s));
  }

  /**
   One call with both cursors stored reports a thread exactly when an entry it
   walked names it, a removal likewise, and flags exactly the threads only Sent
   Items named; each cursor then stands right behind what was walked if the
   folder's chain ended with a link, and where it was if not.
   */
  lemma CallReportsExactly(j: Json, m: Mailbox, cursor: string, script: seq<Reply>)
    requires Faithful(j) && Valid(m) && Knows(m, ParseOutlookCursor(j, cursor)) && ParseOutlookCursor(j, cursor).sent.Some?
    requires ListChanges(j, m, cursor, script).1.Some?
    ensures
      var (n, r) := ListChanges(j, m, cursor, script);
      Exact(m, ParseOutlookCursor(j, cursor), n, ParseOutlookCursor(j, r.value.newCursor), r.value,
            InboxPages(j, m, cursor, script), SentPages(j, m, cursor, script))
  {
    CallIsDone(j, m, cursor, script);
    var (n, r) := ListChanges(j, m, cursor, script);
    DoneIsExact(m, ParseOutlookCursor(j, cursor), n, ParseOutlookCursor(j, r.value.newCursor), r.value,
                InboxPages(j, m, cursor, script), SentPages(j, m, cursor, script));
  }

  /** What a run of calls walks in a folder, one returning call after the other. */
  ghost function Walks(j: Json, m: Mailbox, cursor: string, scripts: seq<seq<Reply>>, folder: Folder): seq<Entry>
    decreases |scripts|
  {
    if scripts == [] then []
    else
      var (m1, r) := ListChanges(j, m, cursor, scripts[0]);
      if r == None then Walks(j, m1, cursor, scripts[1..], folder)
      else
        Contents(if folder.Inbox? then InboxPages(j, m, cursor, scripts[0]) else SentPages(j, m, cursor, scripts[0]))
        + Walks(j, m1, r.value.newCursor, scripts[1..], folder)
  }

  /** Every chain of every returning call ends with a link. */
  ghost predicate AllLinked(j: Json, m: Mailbox, cursor: string, scripts: seq<seq<Reply>>)
    decreases |scripts|
  {
    scripts != [] ==>
      var (m1, r) := ListChanges(j, m, cursor, scripts[0]);
      if r == None then AllLinked(j, m1, cursor, scripts[1..])
      else
        var i, s := InboxPages(j, m, cursor, scripts[0]), SentPages(j, m, cursor, scripts[0]);
        i != [] && s != [] && FinalLink(i) != "" && FinalLink(s) != "" && AllLinked(j, m1, r.value.newCursor, scripts[1..])
  }

  /** The stretch between two positions of a folder's log. */
  ghost predicate IsBetween(n: Mailbox, folder: Folder, from: nat, to: nat, es: seq<Entry>) {
    from <= to <= |FeedOf(n, folder).log| && es == FeedOf(n, folder).log[from..to]
  }

  lemma BetweenTwice(n: Mailbox, o: Mailbox, folder: Folder, a: nat, b: nat, c: nat, es: seq<Entry>, ds: seq<Entry>)
    requires Grows(n, o) && IsBetween(n, folder, a, b, es) && IsBetween(o, folder, b, c, ds)
    ensures IsBetween(o, folder, a, c, es + ds)
  {
    assert FeedOf(n, folder).log[a..b] == FeedOf(o, folder).log[a..b];
  }

  lemma SyncKeepsCursors(j: Json, m: Mailbox, cursor: string, scripts: seq<seq<Reply>>)
    requires Faithful(j) && Valid(m) && Knows(m, ParseOutlookCursor(j, cursor)) && ParseOutlookCursor(j, cursor).sent.Some?
    ensures
      var o := Sync(j, m, cursor, scripts);
      Valid(o.mailbox) && Grows(m, o.mailbox) && Knows(o.mailbox, ParseOutlookCursor(j, o.cursor))
      && ParseOutlookCursor(j, o.cursor).sent.Some?
  {
    NoChangeIsSkipped(j, m, cursor, scripts);
  }

  /** What was walked in both folders is the log between the two cursors. */
  ghost predicate WalkedOnce(m: Mailbox, c: Cursor, n: Mailbox, d: Cursor, i: seq<Entry>, s: seq<Entry>) {
    && Knows(m, c) && Knows(n, d) && c.sent.Some? && d.sent.Some?
    && IsBetween(n, Inbox, m.inbox.links[c.inbox], n.inbox.links[d.inbox], i)
    && IsBetween(n, SentItems, m.sent.links[c.sent.value], n.sent.links[d.sent.value], s)
  }

  lemma WalkedOnceTwice(m: Mailbox, c: Cursor, n: Mailbox, d: Cursor, o: Mailbox, e: Cursor,
                        i: seq<Entry>, s: seq<Entry>, i': seq<Entry>, s': seq<Entry>)
    requires WalkedOnce(m, c, n, d, i, s) && WalkedOnce(n, d, o, e, i', s') && Grows(n, o)
    ensures WalkedOnce(m, c, o, e, i + i', s + s')
  {
    BetweenTwice(n, o, Inbox, m.inbox.links[c.inbox], n.inbox.links[d.inbox], o.inbox.links[e.inbox], i, i');
    BetweenTwice(n, o, SentItems, m.sent.links[c.sent.value], n.sent.links[d.sent.value], o.sent.links[e.sent.value], s, s');
  }

  lemma NothingWalked(m: Mailbox, c: Cursor, n: Mailbox)
    requires Valid(m) && Knows(m, c) && c.sent.Some? && Grows(m, n)
    ensures WalkedOnce(m, c, n, c, [], [])
  {
  }

  lemma DoneWalksOnce(m: Mailbox, c: Cursor, n: Mailbox, d: Cursor, r: Changes, i: seq<Page>, s: seq<Page>)
    requires Done(m, c, n, d, r, i, s) && FinalLink(i) != "" && FinalLink(s) != ""
    ensures WalkedOnce(m, c, n, d, Contents(i), Contents(s))
  {
  }

  lemma CallWalksOnce(j: Json, m: Mailbox, cursor: string, script: seq<Reply>)
    requires Faithful(j) && Valid(m) && Knows(m, ParseOutlookCursor(j, cursor)) && ParseOutlookCursor(j, cursor).sent.Some?
    requires ListChanges(j, m, cursor, script).1.Some?
    requires var i, s := InboxPages(j, m, cursor, script), SentPages(j, m, cursor, script);
      i != [] && s != [] && FinalLink(i) != "" && FinalLink(s) != ""
    ensures
      var (n, r) := ListChanges(j, m, cursor, script);
      WalkedOnce(m, ParseOutlookCursor(j, cursor), n, ParseOutlookCursor(j, r.value.newCursor),
                 Contents(InboxPages(j, m, cursor, script)), Contents(SentPages(j, m, cursor, script)))
  {
    CallIsDone(j, m, cursor, script);
    var (n, r) := ListChanges(j, m, cursor, script);
    DoneWalksOnce(m, ParseOutlookCursor(j, cursor), n, ParseOutlookCursor(j, r.value.newCursor), r.value,
                  InboxPages(j, m, cursor, script), SentPages(j, m, cursor, script));
  }

  /**
   Over any run of calls whose chains end with links, some calls failing and mail
   arriving all along: what the returning calls walk in each folder is exactly the
   log between the first cursor and the last, every entry once and in order.
   */
  lemma {:induction false} EachEntryIsWalkedOnce(j: Json, m: Mailbox, cursor: string, scripts: seq<seq<Reply>>)
    requires Faithful(j) && Valid(m) && Knows(m, ParseOutlookCursor(j, cursor)) && ParseOutlookCursor(j, cursor).sent.Some?
    requires AllLinked(j, m, cursor, scripts)
    ensures
      var o := Sync(j, m, cursor, scripts);
      WalkedOnce(m, ParseOutlookCursor(j, cursor), o.mailbox, ParseOutlookCursor(j, o.cursor),
                 Walks(j, m, cursor, scripts, Inbox), Walks(j, m, cursor, scripts, SentItems))
    decreases |scripts|
  {
    var c := ParseOutlookCursor(j, cursor);
    if scripts == [] {
      NothingWalked(m, c, m);
    } else {
      var (m1, r) := ListChanges(j, m, cursor, scripts[0]);
      var next := if r.Some? then r.value.newCursor else cursor;
      var d := ParseOutlookCursor(j, next);
      var i := if r.Some? then Contents(InboxPages(j, m, cursor, scripts[0])) else [];
      var s := if r.Some? then Contents(SentPages(j, m, cursor, scripts[0])) else [];
      assert Valid(m1) && WalkedOnce(m, c, m1, d, i, s) by {
        CallReportsWhatItPasses(j, m, cursor, scripts[0]);
        if r.Some? { CallWalksOnce(j, m, cursor, scripts[0]); } else { NothingWalked(m, c, m1); }
      }
      EachEntryIsWalkedOnce(j, m1, next, scripts[1..]);
      SyncKeepsCursors(j, m1, next, scripts[1..]);
      var o := Sync(j, m1, next, scripts[1..]);
      var i', s' := Walks(j, m1, next, scripts[1..], Inbox), Walks(j, m1, next, scripts[1..], SentItems);
      WalkedOnceTwice(m, c, m1, d, o.mailbox, ParseOutlookCursor(j, o.cursor), i, s, i', s');
      assert [] + i' == i' && [] + s' == s';
    }
  }

  /** No request of the script meets new mail. */
  ghost predicate Quiet(script: seq<Reply>) {
    forall i :: 0 <= i < |script| ==> script[i].inboxArrivals == [] && script[i].sentArrivals == []
  }

  lemma {:induction false} QuietWalk(m: Mailbox, folder: Folder, url: string, start: string, script: seq<Reply>)
    requires Quiet(script)
    ensures
      var (n, _, rest) := Walk(m, folder, url, start, script);
      n.inbox.log == m.inbox.log && n.sent.log == m.sent.log && Quiet(rest)
    decreases |script|
  {
    if script != [] {
      assert m.inbox.log + [] == m.inbox.log && m.sent.log + [] == m.sent.log;
      var (m1, page) := Get(m, folder, url, script[0]);
      assert m1.inbox.log == m.inbox.log && m1.sent.log == m.sent.log;
      assert Quiet(script[1..]);
      if page.Some? && Goes(page.value) { QuietWalk(m1, folder, page.value.nextLink, start, script[1..]); }
    }
  }

  lemma DoneAtTheEndIsEmpty(m: Mailbox, c: Cursor, n: Mailbox, d: Cursor, r: Changes, i: seq<Page>, s: seq<Page>)
    requires Done(m, c, n, d, r, i, s) && n.inbox.log == m.inbox.log && n.sent.log == m.sent.log
    requires m.inbox.links[c.inbox] == |m.inbox.log| && m.sent.links[c.sent.value] == |m.sent.log|
    ensures r.changed == {} && r.removed == {} && r.sentOnly == {}
  {
    assert Contents(i) == [] && Contents(s) == [];
  }

  lemma QuietCall(j: Json, m: Mailbox, cursor: string, script: seq<Reply>)
    requires Quiet(script) && ParseOutlookCursor(j, cursor).sent.Some? && ListChanges(j, m, cursor, script).1.Some?
    ensures ListChanges(j, m, cursor, script).0.inbox.log == m.inbox.log
    ensures ListChanges(j, m, cursor, script).0.sent.log == m.sent.log
  {
    var c := ParseOutlookCursor(j, cursor);
    QuietWalk(m, Inbox, c.inbox, c.inbox, script);
    var (m1, _, script1) := Walk(m, Inbox, c.inbox, c.inbox, script);
    QuietWalk(m1, SentItems, c.sent.value, c.sent.value, script1);
  }

  /** A call that starts at the ends of both logs and meets no new mail reports nothing. */
  lemma QuietCallReportsNothing(j: Json, m: Mailbox, cursor: string, script: seq<Reply>)
    requires Faithful(j) && Valid(m) && Knows(m, ParseOutlookCursor(j, cursor)) && ParseOutlookCursor(j, cursor).sent.Some?
    requires ListChanges(j, m, cursor, script).1.Some? && Quiet(script)
    requires m.inbox.links[ParseOutlookCursor(j, cursor).inbox] == |m.inbox.log|
    requires m.sent.links[ParseOutlookCursor(j, cursor).sent.value] == |m.sent.log|
    ensures
      var r := ListChanges(j, m, cursor, script).1.value;
      r.changed == {} && r.removed == {} && r.sentOnly == {}
  {
    CallIsDone(j, m, cursor, script);
    QuietCall(j, m, cursor, script);
    var (n, r) := ListChanges(j, m, cursor, script);
    DoneAtTheEndIsEmpty(m, ParseOutlookCursor(j, cursor), n, ParseOutlookCursor(j, r.value.newCursor), r.value,
                        InboxPages(j, m, cursor, script), SentPages(j, m, cursor, script));
  }

  /** An inbox walk followed by taking Sent Items at the end of its chain. */
  lemma WalkThenEstablish(m: Mailbox, inbox: string, script: seq<Reply>)
    requires Valid(m) && inbox in m.inbox.links && Walk(m, Inbox, inbox, inbox, script).1.Some?
    requires var (m1, _, script1) := Walk(m, Inbox, inbox, inbox, script); Establish(m1, SentItems, LATEST, script1).1.Some?
    ensures
      var (m1, w, script1) := Walk(m, Inbox, inbox, inbox, script);
      var (n, link, _) := Establish(m1, SentItems, LATEST, script1);
      var i, s := Pages(m, Inbox, inbox, script), Pages(m1, SentItems, LATEST, script1);
      && w.value.entries == Contents(i) && w.value.newCursor != "" && link.value != ""
      && Legged(m, n, Inbox, inbox, i, w.value.newCursor)
      && link.value in n.sent.links && n.sent.links[link.value] == |Contents(s)|
  {
    var (m1, w, script1) := Walk(m, Inbox, inbox, inbox, script);
    WalkIsItsPages(m, Inbox, inbox, inbox, script);
    WalkCovers(m, Inbox, inbox, inbox, script);
    EstablishGrows(m1, SentItems, LATEST, script1);
    EstablishIsItsPages(m1, SentItems, LATEST, script1);
    FinalLinkStandsAtTheEnd(m1, SentItems, LATEST, script1);
    WalkIsLegged(m, m1, Establish(m1, SentItems, LATEST, script1).0, Inbox, inbox, script);
  }

  /** The report names exactly what this stretch of the inbox names, and flags nothing. */
  ghost predicate ReportsInbox(n: Mailbox, r: Changes, p: nat, q: nat) {
    && (forall x :: x in r.changed <==> NamesThread(n.inbox.log, p, q, x))
    && (forall x :: x in r.removed <==> NamesRemoval(n.inbox.log, p, q, x))
    && r.sentOnly == {}
  }

  lemma InboxReport(n: Mailbox, r: Changes, p: nat, i: seq<Entry>)
    requires p + |i| <= |n.inbox.log| && i == n.inbox.log[p..p + |i|]
    requires r.changed == Conversations(i) && r.removed == Removals(i) && r.sentOnly == {}
    ensures ReportsInbox(n, r, p, p + |i|)
  {
    ContentsName(n.inbox.log, p, i);
  }

  /** The first call of an inbox-only cursor takes Sent Items from where its chain ends, and reports none of it. */
  lemma FirstSentCursorReportsNoneOfIt(j: Json, m: Mailbox, cursor: string, script: seq<Reply>)
    requires Faithful(j) && Valid(m) && Knows(m, ParseOutlookCursor(j, cursor)) && ParseOutlookCursor(j, cursor).sent == None
    requires ListChanges(j, m, cursor, script).1.Some?
    ensures
      var (n, r) := ListChanges(j, m, cursor, script);
      var c, d := ParseOutlookCursor(j, cursor), ParseOutlookCursor(j, r.value.newCursor);
      var i, s := InboxPages(j, m, cursor, script), SentPages(j, m, cursor, script);
      var p := m.inbox.links[c.inbox];
      && ReportsInbox(n, r.value, p, p + |Contents(i)|) && Legged(m, n, Inbox, c.inbox, i, d.inbox)
      && d.sent.Some? && d.sent.value in n.sent.links && n.sent.links[d.sent.value] == |Contents(s)|
  {
    var c := ParseOutlookCursor(j, cursor);
    WalkThenEstablish(m, c.inbox, script);
    var (m1, w, script1) := Walk(m, Inbox, c.inbox, c.inbox, script);
    var link := Establish(m1, SentItems, LATEST, script1).1;
    CursorRoundTripIff(j, Cursor(w.value.newCursor, link));
    var (n, r) := ListChanges(j, m, cursor, script);
    InboxReport(n, r.value, m.inbox.links[c.inbox], w.value.entries);
  }

  /** A bare link, as stored before Sent Items was tracked, is read as the inbox cursor alone. */
  lemma BareLinkIsInboxOnly(j: Json, link: string)
    requires link != "" && link[0] != '{' && !IsSpace(link[0])
    ensures ParseOutlookCursor(j, link) == Cursor(link, None)
  {
  }
}
