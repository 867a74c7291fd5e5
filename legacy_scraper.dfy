/** The `DiscordScraper` of the earlier variant (`main.py`). Its searches ask
    for images and videos only, every scope resumes from the guild row's one
    `last_timestamp`, and `process_message` stores media only.

    The first attachment with a truthy URL of a run is inserted and then
    `insert_user` raises (see `LegacyStore.Database.InsertUser`). The
    exception ends the run before `update_guild_timestamp` is reached. So a
    run writes at most one media row, changes nothing else, and the next run
    starts from the same cursors. */
module LegacyScraper {
  import opened Common
  import opened Api
  import opened Search
  import opened Listing
  import opened LegacyStore

  // ------------------------------------------------------ one message

  /** The first attachment whose URL is truthy: the one the attachment loop
      stops at. */
  function FirstWithUrl(atts: seq<Attachment>): (r: Option<Attachment>)
    ensures r.None? <==> forall i :: 0 <= i < |atts| ==> !HasUrl(atts[i])
    ensures r.Some? ==> exists i :: 0 <= i < |atts| && atts[i] == r.value && HasUrl(atts[i])
                                    && forall j :: 0 <= j < i ==> !HasUrl(atts[j])
    decreases |atts|
  {
    if atts == [] then None
    else if HasUrl(atts[0]) then Some(atts[0])
    else
      var r := FirstWithUrl(atts[1..]);
      assert r.Some? ==> exists i :: 1 <= i < |atts| && atts[i] == r.value && HasUrl(atts[i])
                                     && forall j :: 0 <= j < i ==> !HasUrl(atts[j]) by {
        if r.Some? {
          var i :| 0 <= i < |atts[1..]| && atts[1..][i] == r.value && HasUrl(atts[1..][i])
                   && forall j :: 0 <= j < i ==> !HasUrl(atts[1..][j]);
          assert atts[i + 1] == r.value;
          assert forall j :: 0 <= j < i + 1 ==> !HasUrl(atts[j]) by {
            forall j | 0 <= j < i + 1 ensures !HasUrl(atts[j]) {
              if j > 0 {
                assert atts[j] == atts[1..][j - 1];
              }
            }
          }
        }
      }
      r
  }

  /** The `insert_media` arguments for an attachment of a message. */
  function MediaRowOf(a: Attachment, m: ApiMessage, guildId: string, accountId: string, searchTs: Option<string>): MediaRow
    requires HasUrl(a)
  {
    MediaRow(a.url.value, a.filename, GetOr(a.size, 0), a.contentType, GetOr(a.width, 0), GetOr(a.height, 0),
             AuthorId(m), guildId, m.channelId, accountId, m.timestamp, searchTs)
  }

  /** The tables after a step, and whether the step raised. */
  datatype Outcome = Outcome(tables: Tables, raised: bool)

  /** `process_message`: attachments without a truthy URL are passed over;
      the first one with a URL is inserted and the `insert_user` after it
      raises. */
  function MessageOutcome(t: Tables, m: ApiMessage, guildId: string, accountId: string, searchTs: Option<string>): Outcome {
    match FirstWithUrl(m.attachments)
    case None => Outcome(t, false)
    case Some(a) => Outcome(t.(media := UpsertMedia(t.media, FileId(a), MediaRowOf(a, m, guildId, accountId, searchTs))), true)
  }

  /** The effect of a step that can raise: nothing when it does not raise,
      one media upsert and nothing else when it does. */
  ghost predicate OneMediaWrite(t: Tables, o: Outcome) {
    if o.raised then exists k, row :: o.tables == t.(media := UpsertMedia(t.media, k, row))
    else o.tables == t
  }

  /** Such a step deletes no media row and adds at most one. */
  lemma OneMediaWriteBounds(t: Tables, o: Outcome)
    requires OneMediaWrite(t, o)
    ensures o.tables == t.(media := o.tables.media)
    ensures t.media.Keys <= o.tables.media.Keys
    ensures |t.media| <= |o.tables.media| <= |t.media| + 1
  {
    if o.raised {
      var k, row :| o.tables == t.(media := UpsertMedia(t.media, k, row));
    }
  }

  /** A message without an attachment carrying a truthy URL writes nothing and
      does not raise; any other message raises after inserting exactly the
      first such attachment. */
  lemma MessageOutcomeEffect(t: Tables, m: ApiMessage, guildId: string, accountId: string, searchTs: Option<string>)
    ensures var o := MessageOutcome(t, m, guildId, accountId, searchTs);
      && OneMediaWrite(t, o)
      && (o.raised <==> exists i :: 0 <= i < |m.attachments| && HasUrl(m.attachments[i]))
      && (!o.raised ==> o.tables == t)
      && (o.raised ==> var a := FirstWithUrl(m.attachments).value;
            o.tables == t.(media := UpsertMedia(t.media, FileId(a), MediaRowOf(a, m, guildId, accountId, searchTs))))
  {
    match FirstWithUrl(m.attachments)
    case None =>
    case Some(a) =>
      var row := MediaRowOf(a, m, guildId, accountId, searchTs);
      assert MessageOutcome(t, m, guildId, accountId, searchTs).tables == t.(media := UpsertMedia(t.media, FileId(a), row));
  }

  // ------------------------------------------------------------ pages

  /** The `for` over one page's messages, cut short by the first raise. */
  function MessagesOutcome(t: Tables, msgs: seq<ApiMessage>, guildId: string, accountId: string, searchTs: Option<string>): Outcome
    decreases |msgs|
  {
    if msgs == [] then Outcome(t, false)
    else
      var o := MessageOutcome(t, msgs[0], guildId, accountId, searchTs);
      if o.raised then o else MessagesOutcome(o.tables, msgs[1..], guildId, accountId, searchTs)
  }

  /** The `async for` over a walk's pages, cut short by the first raise. */
  function PagesOutcome(t: Tables, pages: seq<Page>, guildId: string, accountId: string): Outcome
    decreases |pages|
  {
    if pages == [] then Outcome(t, false)
    else
      var o := MessagesOutcome(t, pages[0].messages, guildId, accountId, pages[0].searchTimestamp);
      if o.raised then o else PagesOutcome(o.tables, pages[1..], guildId, accountId)
  }

  lemma {:induction false} MessagesOutcomeOneWrite(t: Tables, msgs: seq<ApiMessage>, guildId: string, accountId: string, searchTs: Option<string>)
    ensures OneMediaWrite(t, MessagesOutcome(t, msgs, guildId, accountId, searchTs))
    decreases |msgs|
  {
    if msgs != [] {
      MessageOutcomeEffect(t, msgs[0], guildId, accountId, searchTs);
      var o := MessageOutcome(t, msgs[0], guildId, accountId, searchTs);
      if !o.raised {
        MessagesOutcomeOneWrite(o.tables, msgs[1..], guildId, accountId, searchTs);
      }
    }
  }

  /** However many pages a walk yields, processing them writes at most one
      media row, and does so exactly when it raises. */
  lemma {:induction false} PagesOutcomeOneWrite(t: Tables, pages: seq<Page>, guildId: string, accountId: string)
    ensures OneMediaWrite(t, PagesOutcome(t, pages, guildId, accountId))
    decreases |pages|
  {
    if pages != [] {
      MessagesOutcomeOneWrite(t, pages[0].messages, guildId, accountId, pages[0].searchTimestamp);
      var o := MessagesOutcome(t, pages[0].messages, guildId, accountId, pages[0].searchTimestamp);
      if !o.raised {
        PagesOutcomeOneWrite(o.tables, pages[1..], guildId, accountId);
      }
    }
  }

  // ------------------------------------------------------------- runs

  /** `guild[2] if not args.deep_scrape else None`, for guilds and for the
      direct-message scope alike. */
  function StartCursor(row: GuildRow, deepScrape: bool): Option<string> {
    if deepScrape then None else row.lastTimestamp
  }

  /** `Stalled`: the modelled server ran out of bodies during that scope's
      walk. `UserInsertFailed`: `insert_user` raised while that scope's pages
      were processed. `MissingDmScope`: no `"@me"` row and deep scrape off,
      so `guild[2]` fails on None; under deep scrape the conditional never
      reads `guild[2]` and the walk runs from no cursor. */
  datatype RunEnd = Completed | Stalled(scope: Scope) | UserInsertFailed(scope: Scope) | MissingDmScope

  datatype Run = Run(tables: Tables, end: RunEnd)

  function GuildTrace(row: (string, GuildRow), server: map<string, seq<Reply>>, deepScrape: bool): Trace {
    Walk(FirstRequest(GuildScope(row.0), ImageAndVideo, StartCursor(row.1, deepScrape)), RepliesFor(server, row.0))
  }

  /** `process_guild_messages` over the guilds in the order fetched; a raise
      ends it. */
  function GuildsRun(t: Tables, rows: seq<(string, GuildRow)>, server: map<string, seq<Reply>>, deepScrape: bool, accountId: string): Run
    decreases |rows|
  {
    if rows == [] then Run(t, Completed)
    else
      var trace := GuildTrace(rows[0], server, deepScrape);
      var o := PagesOutcome(t, trace.pages, rows[0].0, accountId);
      if o.raised then Run(o.tables, UserInsertFailed(GuildScope(rows[0].0)))
      else if trace.end == NoMoreReplies then Run(o.tables, Stalled(GuildScope(rows[0].0)))
      else GuildsRun(o.tables, rows[1..], server, deepScrape, accountId)
  }

  /** The DM walk's start cursor: `guild[2] if not args.deep_scrape else
      None`, which reads the row only when deep scrape is off. */
  function DmStartCursor(t: Tables, deepScrape: bool): Option<string>
    requires deepScrape || DmGuildId in t.guilds
  {
    if deepScrape then None else t.guilds[DmGuildId].lastTimestamp
  }

  /** The DM search walked from `cursor`, its pages processed under `"@me"`. */
  function DmWalk(t: Tables, replies: seq<Reply>, cursor: Option<string>, accountId: string): Run {
    var trace := Walk(FirstRequest(DmScope, ImageAndVideo, cursor), replies);
    var o := PagesOutcome(t, trace.pages, DmGuildId, accountId);
    Run(o.tables, if o.raised then UserInsertFailed(DmScope) else if trace.end == Exhausted then Completed else Stalled(DmScope))
  }

  /** `process_dms`. */
  function DmRun(t: Tables, replies: seq<Reply>, deepScrape: bool, accountId: string): Run {
    if DmGuildId !in t.guilds && !deepScrape then Run(t, MissingDmScope)
    else DmWalk(t, replies, DmStartCursor(t, deepScrape), accountId)
  }

  /** A whole guild run writes at most one media row, and only when it ends
      in the failed user insert; guilds, cursors, channels, users and
      accounts are untouched, so the next run searches from the same place. */
  lemma {:induction false} GuildsRunOneWrite(t: Tables, rows: seq<(string, GuildRow)>, server: map<string, seq<Reply>>, deepScrape: bool, accountId: string)
    ensures var r := GuildsRun(t, rows, server, deepScrape, accountId);
      && OneMediaWrite(t, Outcome(r.tables, r.end.UserInsertFailed?))
      && r.tables.guilds == t.guilds
      && |t.media| <= |r.tables.media| <= |t.media| + 1
    decreases |rows|
  {
    if rows != [] {
      var trace := GuildTrace(rows[0], server, deepScrape);
      PagesOutcomeOneWrite(t, trace.pages, rows[0].0, accountId);
      var o := PagesOutcome(t, trace.pages, rows[0].0, accountId);
      if !o.raised && trace.end != NoMoreReplies {
        GuildsRunOneWrite(o.tables, rows[1..], server, deepScrape, accountId);
      } else {
        OneMediaWriteBounds(t, o);
      }
    }
  }

  /** The same for the direct-message run. */
  lemma DmRunOneWrite(t: Tables, replies: seq<Reply>, deepScrape: bool, accountId: string)
    ensures var r := DmRun(t, replies, deepScrape, accountId);
      && OneMediaWrite(t, Outcome(r.tables, r.end.UserInsertFailed?))
      && r.tables.guilds == t.guilds
      && |t.media| <= |r.tables.media| <= |t.media| + 1
  {
    if DmGuildId in t.guilds || deepScrape {
      var trace := Walk(FirstRequest(DmScope, ImageAndVideo, DmStartCursor(t, deepScrape)), replies);
      PagesOutcomeOneWrite(t, trace.pages, DmGuildId, accountId);
      OneMediaWriteBounds(t, PagesOutcome(t, trace.pages, DmGuildId, accountId));
    }
  }

  /** The DM run fails on a missing `"@me"` row exactly when deep scrape is
      off, and then writes nothing; under deep scrape it walks from no cursor
      whether or not the row exists. */
  lemma DmRunMissingScope(t: Tables, replies: seq<Reply>, deepScrape: bool, accountId: string)
    ensures var r := DmRun(t, replies, deepScrape, accountId);
      && (r.end == MissingDmScope <==> DmGuildId !in t.guilds && !deepScrape)
      && (r.end == MissingDmScope ==> r.tables == t)
      && (deepScrape ==> r == DmWalk(t, replies, None, accountId))
  {
  }

  /** The media half of `main`: `process_guild_messages`, then
      `process_dms` only when the guild walks all finished. */
  function MediaPhase(t: Tables, rows: seq<(string, GuildRow)>, server: map<string, seq<Reply>>, dmReplies: seq<Reply>, deepScrape: bool, accountId: string): Run {
    var g := GuildsRun(t, rows, server, deepScrape, accountId);
    if g.end == Completed then DmRun(g.tables, dmReplies, deepScrape, accountId) else g
  }

  /** Guild walks and the DM walk together still write at most one media row,
      only when the run ends in the failed user insert, and nothing else. */
  lemma MediaPhaseOneWrite(t: Tables, rows: seq<(string, GuildRow)>, server: map<string, seq<Reply>>, dmReplies: seq<Reply>, deepScrape: bool, accountId: string)
    ensures var r := MediaPhase(t, rows, server, dmReplies, deepScrape, accountId);
      && OneMediaWrite(t, Outcome(r.tables, r.end.UserInsertFailed?))
      && r.tables == t.(media := r.tables.media)
      && t.media.Keys <= r.tables.media.Keys
      && |t.media| <= |r.tables.media| <= |t.media| + 1
  {
    GuildsRunOneWrite(t, rows, server, deepScrape, accountId);
    var g := GuildsRun(t, rows, server, deepScrape, accountId);
    if g.end == Completed {
      DmRunOneWrite(t, dmReplies, deepScrape, accountId);
      OneMediaWriteBounds(t, Outcome(DmRun(t, dmReplies, deepScrape, accountId).tables, DmRun(t, dmReplies, deepScrape, accountId).end.UserInsertFailed?));
    } else {
      OneMediaWriteBounds(t, Outcome(g.tables, g.end.UserInsertFailed?));
    }
  }

  // ---------------------------------------------------- guild listing

  /** The 200 branch of `get_guilds`: every listed guild upserted in order. */
  function InsertGuilds(gs: map<string, GuildRow>, list: seq<ApiGuild>): map<string, GuildRow>
    decreases |list|
  {
    if list == [] then gs else InsertGuilds(UpsertGuild(gs, list[0].id, list[0].name), list[1..])
  }

  /** The guilds table after `get_guilds`: the listed guilds upserted on a
      200, the table as it was otherwise. */
  function FetchedGuilds(gs: map<string, GuildRow>, reply: GuildsReply): map<string, GuildRow> {
    if reply.status == 200 then InsertGuilds(gs, reply.guilds) else gs
  }

  /** Listing guilds adds exactly the listed ids, keeps the cursor of every
      guild already known, and new guilds start without one. */
  lemma {:induction false} InsertGuildsEffect(gs: map<string, GuildRow>, list: seq<ApiGuild>)
    ensures var r := InsertGuilds(gs, list);
      && r.Keys == gs.Keys + GuildIds(list)
      && (forall k :: k in gs ==> r[k].lastTimestamp == gs[k].lastTimestamp)
      && (forall k :: k in r && k !in gs ==> r[k].lastTimestamp.None?)
    decreases |list|
  {
    if list != [] {
      InsertGuildsEffect(UpsertGuild(gs, list[0].id, list[0].name), list[1..]);
    }
  }

  /** The account upserted by name and the DM scope registered as `"@me"`. */
  function Initialized(t: Tables, userId: string, username: string): Tables {
    t.(accounts := UpsertAccount(t.accounts, userId, username), guilds := UpsertGuild(t.guilds, DmGuildId, "DMs"))
  }

  // ------------------------------------------------------ the scraper

  class DiscordScraper {
    const userId: string
    const username: string
    const token: string
    const db: Database
    var startCount: nat
    var endCount: nat
    var newCount: int

    ghost predicate Valid()
      reads this, db
    {
      startCount <= |db.media|
    }

    /** `__init__` followed by `async_init` on a database file holding `persisted`. */
    constructor(userId: string, username: string, token: string, persisted: Tables)
      ensures this.userId == userId && this.username == username && this.token == token
      ensures fresh(db) && db.State() == Initialized(persisted, userId, username)
      ensures startCount == |db.media| && Valid()
    {
      var d := new Database(persisted);
      d.InsertScrapingAccount(userId, username);
      d.InsertGuild(DmGuildId, "DMs");
      var n := d.CountMedia();
      this.userId, this.username, this.token := userId, username, token;
      db := d;
      startCount := n;
      endCount, newCount := 0, 0;
    }

    /** `get_guilds`: on 200 every listed guild is upserted; any other status
        raises and nothing is written. */
    method FetchGuilds(reply: GuildsReply) returns (ok: bool)
      requires Valid()
      modifies db
      ensures Valid()
      ensures ok <==> reply.status == 200
      ensures db.State() == old(db.State()).(guilds := if ok then InsertGuilds(old(db.guilds), reply.guilds) else old(db.guilds))
    {
      if reply.status != 200 {
        return false;
      }
      var i := 0;
      while i < |reply.guilds|
        invariant 0 <= i <= |reply.guilds|
        invariant db.State() == old(db.State()).(guilds := db.guilds)
        invariant InsertGuilds(old(db.guilds), reply.guilds) == InsertGuilds(db.guilds, reply.guilds[i..])
      {
        assert reply.guilds[i..][1..] == reply.guilds[i + 1..];
        db.InsertGuild(reply.guilds[i].id, reply.guilds[i].name);
        i := i + 1;
      }
      return true;
    }

    /** The 200 branch of `get_guild_channels`: every text channel of the
        response inserted in order, the others passed over. */
    method StoreChannelRows(chans: seq<ApiChannel>, guildId: string)
      requires Valid()
      modifies db
      ensures Valid()
      ensures db.State() == old(db.State()).(channels := StoreTextChannels(old(db.channels), chans, guildId))
    {
      var k := 0;
      while k < |chans|
        invariant 0 <= k <= |chans|
        invariant db.State() == old(db.State()).(channels := db.channels)
        invariant StoreTextChannels(old(db.channels), chans, guildId) == StoreTextChannels(db.channels, chans[k..], guildId)
      {
        var c := chans[k];
        assert chans[k..][1..] == chans[k + 1..];
        if IsTextChannel(c) {
          db.InsertChannel(GetOr(c.id, MissingId), GetOr(c.name, ""), guildId, GetOr(c.nsfw, false), false);
        }
        k := k + 1;
      }
    }

    /** The guilds `get_guild_channels(None, None)` visits: the rows of
        `get_guilds()`, in that order, one per stored guild other than `"@me"`. */
    method VisitOrder() returns (order: seq<string>)
      ensures forall id :: id in order <==> id in db.guilds && id != DmGuildId
      ensures forall i, j :: 0 <= i < j < |order| ==> order[i] != order[j]
    {
      var rows := db.GetGuilds();
      order := seq(|rows|, k requires 0 <= k < |rows| => rows[k].0);
      forall id | id in db.guilds && id != DmGuildId ensures id in order {
        var k :| 0 <= k < |rows| && rows[k].0 == id;
        assert order[k] == id;
      }
    }

    /** The loop of `get_guild_channels` over a visiting order: one channel
        listing per guild, a 429 repeating the same guild. */
    method VisitGuilds(order: seq<string>, replies: seq<ChannelReply>) returns (end: ListingEnd)
      requires Valid()
      modifies db
      ensures Valid()
      ensures var l := ListChannels(old(db.guilds), old(db.channels), order, replies);
        db.State() == old(db.State()).(guilds := l.guilds, channels := l.channels) && end == l.end
    {
      var i, j := 0, 0;
      while i < |order|
        invariant 0 <= i <= |order| && 0 <= j <= |replies|
        invariant Valid()
        invariant db.State() == old(db.State()).(guilds := db.guilds, channels := db.channels)
        invariant ListChannels(old(db.guilds), old(db.channels), order, replies)
          == ListChannels(db.guilds, db.channels, order[i..], replies[j..])
        decreases |replies| - j
      {
        if j == |replies| {
          return NoMoreResponses;
        }
        var reply := replies[j];
        var guildId := order[i];
        assert replies[j..][1..] == replies[j + 1..];
        assert order[i..][1..] == order[i + 1..];
        j := j + 1;
        var action := Dispatch(reply.status);
        if action == StoreChannels {
          StoreChannelRows(reply.channels, guildId);
          i := i + 1;
        } else if action == RetryGuild {
          // the source sleeps five seconds and calls itself on this one guild
        } else if action == DropGuild {
          db.RemoveGuild(guildId);
          i := i + 1;
        } else {
          return Raised(reply.status);
        }
      }
      end := ListedAll;
    }

    /** `get_guild_channels(None, None)`: one listing per stored guild other
        than `"@me"`, as `ListChannels` states. */
    method GetGuildChannels(replies: seq<ChannelReply>) returns (order: seq<string>, end: ListingEnd)
      requires Valid()
      modifies db
      ensures Valid()
      ensures forall id :: id in order <==> id in old(db.guilds) && id != DmGuildId
      ensures forall i, j :: 0 <= i < j < |order| ==> order[i] != order[j]
      ensures var l := ListChannels(old(db.guilds), old(db.channels), order, replies);
        db.State() == old(db.State()).(guilds := l.guilds, channels := l.channels) && end == l.end
    {
      order := VisitOrder();
      end := VisitGuilds(order, replies);
    }

    /** `process_message`; `completed` is false when it raised. */
    method ProcessMessage(m: ApiMessage, guildId: string, searchTs: Option<string>) returns (completed: bool)
      requires Valid()
      modifies db
      ensures Valid()
      ensures MessageOutcome(old(db.State()), m, guildId, userId, searchTs) == Outcome(db.State(), !completed)
    {
      MessageOutcomeEffect(db.State(), m, guildId, userId, searchTs);
      OneMediaWriteBounds(db.State(), MessageOutcome(db.State(), m, guildId, userId, searchTs));
      var attachments := m.attachments;
      var i := 0;
      while i < |attachments|
        invariant 0 <= i <= |attachments|
        invariant db.State() == old(db.State())
        invariant FirstWithUrl(attachments) == FirstWithUrl(attachments[i..])
      {
        var a := attachments[i];
        assert attachments[i..][1..] == attachments[i + 1..];
        if HasUrl(a) {
          db.InsertMedia(FileId(a), MediaRowOf(a, m, guildId, userId, searchTs));
          var accepted := db.InsertUser(AuthorId(m), AuthorName(m), None);
          // the rejected statement raises: the guild timestamp update and the
          // DM channel insert that follow it are never reached
          return accepted;
        }
        i := i + 1;
      }
      return true;
    }

    /** The `for message in messages` loop of one page, cut short by the
        first raise. */
    method ProcessMessages(msgs: seq<ApiMessage>, guildId: string, searchTs: Option<string>) returns (completed: bool)
      requires Valid()
      modifies db
      ensures Valid()
      ensures MessagesOutcome(old(db.State()), msgs, guildId, userId, searchTs) == Outcome(db.State(), !completed)
    {
      var j := 0;
      while j < |msgs|
        invariant 0 <= j <= |msgs|
        invariant Valid()
        invariant MessagesOutcome(old(db.State()), msgs, guildId, userId, searchTs) == MessagesOutcome(db.State(), msgs[j..], guildId, userId, searchTs)
      {
        assert msgs[j..][1..] == msgs[j + 1..];
        var ok := ProcessMessage(msgs[j], guildId, searchTs);
        if !ok {
          return false;
        }
        j := j + 1;
      }
      return true;
    }

    /** The `async for` over a walk's pages; `completed` is false when a
        message raised. */
    method ProcessPages(pages: seq<Page>, guildId: string) returns (completed: bool)
      requires Valid()
      modifies db
      ensures Valid()
      ensures PagesOutcome(old(db.State()), pages, guildId, userId) == Outcome(db.State(), !completed)
    {
      var i := 0;
      while i < |pages|
        invariant 0 <= i <= |pages|
        invariant Valid()
        invariant PagesOutcome(old(db.State()), pages, guildId, userId) == PagesOutcome(db.State(), pages[i..], guildId, userId)
      {
        assert pages[i..][1..] == pages[i + 1..];
        var ok := ProcessMessages(pages[i].messages, guildId, pages[i].searchTimestamp);
        if !ok {
          return false;
        }
        i := i + 1;
      }
      return true;
    }

    /** `process_guild_messages`: every guild `get_guilds()` returns, walked
        from its stored cursor (from the start under deep scrape). */
    method ProcessGuildMessages(deepScrape: bool, server: map<string, seq<Reply>>)
      returns (rows: seq<(string, GuildRow)>, end: RunEnd)
      requires Valid()
      modifies db
      ensures Valid()
      ensures forall i :: 0 <= i < |rows| ==> rows[i].0 in old(db.guilds) && rows[i].1 == old(db.guilds)[rows[i].0] && rows[i].0 != DmGuildId
      ensures forall id :: id in old(db.guilds) && id != DmGuildId ==> exists i :: 0 <= i < |rows| && rows[i].0 == id
      ensures forall i, j :: 0 <= i < j < |rows| ==> rows[i].0 != rows[j].0
      ensures Run(db.State(), end) == GuildsRun(old(db.State()), rows, server, deepScrape, userId)
    {
      rows := db.GetGuilds();
      GuildsRunOneWrite(db.State(), rows, server, deepScrape, userId);
      var i := 0;
      while i < |rows|
        invariant 0 <= i <= |rows|
        invariant Valid()
        invariant GuildsRun(old(db.State()), rows, server, deepScrape, userId) == GuildsRun(db.State(), rows[i..], server, deepScrape, userId)
      {
        var guildId := rows[i].0;
        assert rows[i..][1..] == rows[i + 1..];
        var trace := SearchMedia(GuildScope(guildId), ImageAndVideo, StartCursor(rows[i].1, deepScrape), RepliesFor(server, guildId));
        var ok := ProcessPages(trace.pages, guildId);
        if !ok {
          return rows, UserInsertFailed(GuildScope(guildId));
        }
        if trace.end == NoMoreReplies {
          return rows, Stalled(GuildScope(guildId));
        }
        i := i + 1;
      }
      end := Completed;
    }

    /** `process_dms`. */
    method ProcessDms(deepScrape: bool, replies: seq<Reply>) returns (end: RunEnd)
      requires Valid()
      modifies db
      ensures Valid()
      ensures Run(db.State(), end) == DmRun(old(db.State()), replies, deepScrape, userId)
    {
      DmRunOneWrite(db.State(), replies, deepScrape, userId);
      var row := db.GetDmGuild();
      if row.None? && !deepScrape {
        return MissingDmScope;
      }
      var cursor := if deepScrape then None else row.value.lastTimestamp;
      var trace := SearchMedia(DmScope, ImageAndVideo, cursor, replies);
      var ok := ProcessPages(trace.pages, DmGuildId);
      end := if !ok then UserInsertFailed(DmScope) else if trace.end == Exhausted then Completed else Stalled(DmScope);
    }

    /** The body of `main` after start-up: list the guilds, list their
        channels, walk every guild, then the direct messages. A raise in a
        step, or a server that runs dry, ends the run there; `reachedMedia`
        is false exactly when it ended before the walks. `order` is the
        channel listing's visiting order and `rows` the guilds walked. */
    method Scrape(guildsReply: GuildsReply, channelReplies: seq<ChannelReply>, deepScrape: bool,
                  server: map<string, seq<Reply>>, dmReplies: seq<Reply>)
      returns (reachedMedia: bool, order: seq<string>, rows: seq<(string, GuildRow)>)
      requires Valid()
      modifies db
      ensures Valid()
      ensures var fetched := FetchedGuilds(old(db.guilds), guildsReply);
        && (guildsReply.status != 200 ==> order == [] && !reachedMedia && db.State() == old(db.State()))
        && (guildsReply.status == 200 ==> forall id :: id in order <==> id in fetched && id != DmGuildId)
        && (forall i, j :: 0 <= i < j < |order| ==> order[i] != order[j])
      ensures var l := ListChannels(FetchedGuilds(old(db.guilds), guildsReply), old(db.channels), order, channelReplies);
        && (reachedMedia <==> guildsReply.status == 200 && l.end == ListedAll)
        && (guildsReply.status == 200 && !reachedMedia ==>
              rows == [] && db.State() == old(db.State()).(guilds := l.guilds, channels := l.channels))
        && (reachedMedia ==>
              && (forall i :: 0 <= i < |rows| ==> rows[i].0 in l.guilds && rows[i].1 == l.guilds[rows[i].0] && rows[i].0 != DmGuildId)
              && (forall id :: id in l.guilds && id != DmGuildId ==> exists i :: 0 <= i < |rows| && rows[i].0 == id)
              && (forall i, j :: 0 <= i < j < |rows| ==> rows[i].0 != rows[j].0)
              && db.State() == MediaPhase(old(db.State()).(guilds := l.guilds, channels := l.channels), rows, server, dmReplies, deepScrape, userId).tables)
      ensures db.accounts == old(db.accounts) && db.users == old(db.users)
      ensures old(db.media).Keys <= db.media.Keys
      ensures |old(db.media)| <= |db.media| <= |old(db.media)| + 1
    {
      rows, order := [], [];
      var ok := FetchGuilds(guildsReply);
      if !ok {
        return false, order, rows;
      }
      var listing;
      order, listing := GetGuildChannels(channelReplies);
      if listing != ListedAll {
        return false, order, rows;
      }
      ghost var before := db.State();
      var end;
      rows, end := ProcessGuildMessages(deepScrape, server);
      MediaPhaseOneWrite(before, rows, server, dmReplies, deepScrape, userId);
      if end == Completed {
        var dmEnd := ProcessDms(deepScrape, dmReplies);
      }
      return true, order, rows;
    }

    /** `get_new_count`: the media rows added since start-up, never negative. */
    method GetNewCount() returns (n: int)
      requires Valid()
      modifies this`endCount, this`newCount
      ensures endCount == |db.media| && newCount == n
      ensures n == |db.media| - startCount && n >= 0
    {
      endCount := db.CountMedia();
      newCount := endCount - startCount;
      n := newCount;
    }
  }
}
