/** The cursor-driven walk over the media search endpoint, as both scrapers
    write it in `search_guild_media` and `search_dm_media`: post a request,
    retry it unchanged after a rate-limit body, stop on the first page without
    messages, yield every other page and move the cursor to the page's
    timestamp when that timestamp is truthy. The HTTP status is never looked
    at; only the JSON body decides. The server is a finite list of bodies, one
    per request. */
module Search {
  import opened Common
  import opened Api

  datatype Scope = GuildScope(guildId: string) | DmScope

  /** `"limit": 25` in every search request. */
  const PageLimit: nat := 25

  /** main.py narrows the search with `"has": ["image", "video"]`;
      dump_messages.py sends no `has` key, modelled as the empty list. */
  const ImageAndVideo: seq<string> := ["image", "video"]
  const AnyMedia: seq<string> := []

  /** The parts of `request_json` that vary. `include_nsfw`, ascending
      timestamp order and `track_exact_total_hits` are the same in every
      request. `cursor` is `{"timestamp": t, "type": "timestamp"}` or null. */
  datatype SearchRequest = SearchRequest(scope: Scope, has: seq<string>, limit: nat, cursor: Option<string>)

  /** A response body: its `message` (empty when absent), its `retry_after`
      (only slept on), `tabs.media.messages` (empty when any level is
      missing) and `tabs.media.cursor.timestamp`. */
  datatype Reply = Reply(message: string, retryAfter: int, messages: seq<ApiMessage>, cursorTimestamp: Option<string>)

  /** A yielded `(messages, timestamp)` pair. */
  datatype Page = Page(messages: seq<ApiMessage>, searchTimestamp: Option<string>)

  /** `Exhausted`: a body without messages ended the walk. `NoMoreReplies`:
      the modelled server has no further body; the source would still be
      requesting. */
  datatype WalkEnd = Exhausted | NoMoreReplies

  /** Every request sent, every page yielded, and how the walk ended. */
  datatype Trace = Trace(requests: seq<SearchRequest>, pages: seq<Page>, end: WalkEnd)

  /** `"rate limited" in data.get("message", "")`. */
  predicate IsRateLimited(r: Reply) {
    Contains(r.message, "rate limited")
  }

  /** A body is rate limited exactly when "rate limited" occurs somewhere in
      its message. */
  lemma RateLimitedMeaning(r: Reply)
    ensures IsRateLimited(r) <==> exists i: nat :: OccursAt(r.message, "rate limited", i)
  {
    ContainsMeaning(r.message, "rate limited");
  }

  /** A body that ends the walk: not rate limited and without messages. */
  predicate EndsWalk(r: Reply) {
    !IsRateLimited(r) && r.messages == []
  }

  /** The bodies the modelled server answers one guild's searches with; a
      guild it has nothing for answers nothing. */
  function RepliesFor(server: map<string, seq<Reply>>, guildId: string): seq<Reply> {
    if guildId in server then server[guildId] else []
  }

  /** The cursor of the first request: a cursor object only for a truthy
      start timestamp. */
  function FirstRequest(scope: Scope, has: seq<string>, timestamp: Option<string>): (q: SearchRequest)
    ensures q.scope == scope && q.has == has && q.limit == PageLimit
    ensures q.cursor.None? <==> !Truthy(timestamp)
    ensures Truthy(timestamp) ==> q.cursor == timestamp
  {
    SearchRequest(scope, has, PageLimit, if Truthy(timestamp) then timestamp else None)
  }

  /** `if timestamp: request_json[...]["cursor"] = {...}`. */
  function Advance(q: SearchRequest, timestamp: Option<string>): SearchRequest {
    if Truthy(timestamp) then q.(cursor := timestamp) else q
  }

  /** The request sent after `q` was answered by `r` (when `r` did not end the walk). */
  function NextRequest(q: SearchRequest, r: Reply): SearchRequest {
    if IsRateLimited(r) then q else Advance(q, r.cursorTimestamp)
  }

  /** The walk, request by request. */
  function Walk(q: SearchRequest, replies: seq<Reply>): Trace
    decreases |replies|
  {
    if replies == [] then Trace([], [], NoMoreReplies)
    else
      var r := replies[0];
      if IsRateLimited(r) then
        var rest := Walk(q, replies[1..]);
        Trace([q] + rest.requests, rest.pages, rest.end)
      else if r.messages == [] then
        Trace([q], [], Exhausted)
      else
        var rest := Walk(Advance(q, r.cursorTimestamp), replies[1..]);
        Trace([q] + rest.requests, [Page(r.messages, r.cursorTimestamp)] + rest.pages, rest.end)
  }

  /** The pages a list of bodies carries, in order: those neither rate
      limited nor empty. */
  function PagesOf(replies: seq<Reply>): seq<Page>
    decreases |replies|
  {
    if replies == [] then []
    else if IsRateLimited(replies[0]) || replies[0].messages == [] then PagesOf(replies[1..])
    else [Page(replies[0].messages, replies[0].cursorTimestamp)] + PagesOf(replies[1..])
  }

  /** The requests and pages already seen, followed by a trace still to come. */
  function After(requests: seq<SearchRequest>, pages: seq<Page>, t: Trace): Trace {
    Trace(requests + t.requests, pages + t.pages, t.end)
  }

  /** Moving the head of a trace onto what was already seen. */
  lemma AfterStep(requests: seq<SearchRequest>, pages: seq<Page>, q: SearchRequest, page: seq<Page>, t: Trace)
    ensures After(requests, pages, Trace([q] + t.requests, page + t.pages, t.end))
         == After(requests + [q], pages + page, t)
  {
    assert requests + ([q] + t.requests) == (requests + [q]) + t.requests;
    assert pages + (page + t.pages) == (pages + page) + t.pages;
  }

  /** `search_guild_media` / `search_dm_media`: the `while True` loop over the
      server's bodies. */
  method SearchMedia(scope: Scope, has: seq<string>, timestamp: Option<string>, replies: seq<Reply>)
    returns (trace: Trace)
    ensures trace == Walk(FirstRequest(scope, has, timestamp), replies)
  {
    var request := FirstRequest(scope, has, timestamp);
    var requests: seq<SearchRequest> := [];
    var pages: seq<Page> := [];
    var i := 0;
    while i < |replies|
      invariant 0 <= i <= |replies|
      invariant Walk(FirstRequest(scope, has, timestamp), replies) == After(requests, pages, Walk(request, replies[i..]))
    {
      var reply := replies[i];
      assert replies[i..][1..] == replies[i + 1..];
      if IsRateLimited(reply) {
        AfterStep(requests, pages, request, [], Walk(request, replies[i + 1..]));
        requests := requests + [request];
        i := i + 1;
        continue;
      }
      if reply.messages == [] {
        return Trace(requests + [request], pages, Exhausted);
      }
      var next := if Truthy(reply.cursorTimestamp) then request.(cursor := reply.cursorTimestamp) else request;
      AfterStep(requests, pages, request, [Page(reply.messages, reply.cursorTimestamp)], Walk(next, replies[i + 1..]));
      requests := requests + [request];
      pages := pages + [Page(reply.messages, reply.cursorTimestamp)];
      request := next;
      i := i + 1;
    }
    trace := Trace(requests, pages, NoMoreReplies);
  }

  /** The request sequence: the first request is the one built from the start
      timestamp; each later request is the previous one after a rate-limit body
      (the identical request) and the previous one with the cursor moved to a
      truthy page timestamp otherwise; no request follows a body that ends the
      walk, and the walk ends `Exhausted` exactly when the last body answered
      ended it. */
  lemma {:induction false} WalkRequests(q: SearchRequest, replies: seq<Reply>)
    ensures var t := Walk(q, replies);
      && |t.requests| <= |replies|
      && (replies != [] ==> |t.requests| > 0 && t.requests[0] == q)
      && (forall k :: 0 <= k < |t.requests| - 1 ==>
            !EndsWalk(replies[k]) && t.requests[k + 1] == NextRequest(t.requests[k], replies[k]))
      && (t.end == Exhausted <==> |t.requests| > 0 && EndsWalk(replies[|t.requests| - 1]))
      && (t.end == NoMoreReplies ==> |t.requests| == |replies|)
    decreases |replies|
  {
    if replies != [] {
      var r := replies[0];
      var t := Walk(q, replies);
      if !EndsWalk(r) {
        var next := NextRequest(q, r);
        WalkRequests(next, replies[1..]);
        var rest := Walk(next, replies[1..]);
        assert t.requests == [q] + rest.requests;
        forall k | 0 <= k < |t.requests| - 1
          ensures !EndsWalk(replies[k]) && t.requests[k + 1] == NextRequest(t.requests[k], replies[k])
        {
          if k > 0 {
            assert replies[k] == replies[1..][k - 1];
          }
        }
        if |rest.requests| > 0 {
          assert replies[|t.requests| - 1] == replies[1..][|rest.requests| - 1];
        }
      }
    }
  }

  /** Only the cursor ever changes between requests, and every cursor sent is
      either the first request's or a truthy timestamp taken from a page. */
  lemma {:induction false} WalkKeepsRequestShape(q: SearchRequest, replies: seq<Reply>)
    ensures forall p :: p in Walk(q, replies).requests ==>
      p.scope == q.scope && p.has == q.has && p.limit == q.limit && (p.cursor == q.cursor || Truthy(p.cursor))
    decreases |replies|
  {
    if replies != [] && !EndsWalk(replies[0]) {
      var next := NextRequest(q, replies[0]);
      WalkKeepsRequestShape(next, replies[1..]);
    }
  }

  /** The pages yielded are exactly the non-empty, non-rate-limited bodies
      among those answered, in order; so every yielded page has messages. */
  lemma {:induction false} WalkPages(q: SearchRequest, replies: seq<Reply>)
    ensures var t := Walk(q, replies);
      |t.requests| <= |replies| && t.pages == PagesOf(replies[..|t.requests|])
    ensures forall p :: p in Walk(q, replies).pages ==> p.messages != []
    decreases |replies|
  {
    if replies != [] {
      var r := replies[0];
      var t := Walk(q, replies);
      if EndsWalk(r) {
        assert replies[..1][1..] == [];
      } else {
        var next := NextRequest(q, r);
        WalkPages(next, replies[1..]);
        var rest := Walk(next, replies[1..]);
        assert replies[..|t.requests|][1..] == replies[1..][..|rest.requests|];
      }
    }
  }
}
