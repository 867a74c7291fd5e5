/** `DiscordScraper` of dump_messages.py: what one message, one page and one
    scope walk write into the store, the guild and channel listings, and the
    before/after media count. */
module Scraper {
  import opened Common
  import opened Api
  import opened Search
  import opened Listing
  import opened Store

  /** The command line's `--store-messages` is overwritten with True right
      after parsing, so every page moves the message cursor. */
  const StoreMessages: bool := true

  /** The cursor kind `process_message` writes: `1 if args.store_messages else 0`. */
  const WrittenCursor: int := if StoreMessages then MessageCursor else MediaCursor

  // ---------------------------------------------------------------- one message

  /** The `messages` row of a search hit, with the `.get` defaults. */
  function MessageRowOf(m: ApiMessage, guildId: string, accountId: string, searchTs: Option<string>): MessageRow {
    MessageRow(GetOr(m.content, ""), GetOr(m.timestamp, ""), GetOr(m.editedTimestamp, ""),
               GetOr(AuthorId(m), MissingId), guildId, GetOr(m.channelId, MissingId), accountId,
               searchTs, m.attachments != [])
  }

  /** The `media` row of an attachment that has a URL. */
  function MediaRowOf(a: Attachment, messageId: string, searchTs: Option<string>): MediaRow
    requires HasUrl(a)
  {
    MediaRow(a.url.value, a.filename, GetOr(a.size, 0), a.contentType, GetOr(a.width, 0), GetOr(a.height, 0),
             messageId, searchTs)
  }

  /** The writes `process_message` makes before its attachment loop: the
      message row, the author, the scope's cursor and, in the DM scope only, a
      DM channel named after the author's id. */
  function RecordMessage(t: Tables, m: ApiMessage, guildId: string, accountId: string, searchTs: Option<string>): Tables {
    var authorId := GetOr(AuthorId(m), MissingId);
    var channelId := GetOr(m.channelId, MissingId);
    t.(messages := UpsertMessage(t.messages, GetOr(m.id, MissingId), MessageRowOf(m, guildId, accountId, searchTs)),
       users := UpsertUser(t.users, authorId, GetOr(AuthorName(m), "")),
       guilds := StampGuild(t.guilds, guildId, searchTs, WrittenCursor),
       channels := if guildId == DmGuildId then UpsertChannel(t.channels, channelId, ChannelRow(authorId, true, false, guildId))
                   else t.channels)
  }

  /** The attachment loop: one media upsert per attachment with a truthy URL, in order. */
  function StoreAttachments(media: map<string, MediaRow>, atts: seq<Attachment>, messageId: string, searchTs: Option<string>): map<string, MediaRow>
    decreases |atts|
  {
    if atts == [] then media
    else
      var a := atts[0];
      var next := if HasUrl(a) then UpsertMedia(media, FileId(a), MediaRowOf(a, messageId, searchTs)) else media;
      StoreAttachments(next, atts[1..], messageId, searchTs)
  }

  /** `process_message`. */
  function ApplyMessage(t: Tables, m: ApiMessage, guildId: string, accountId: string, searchTs: Option<string>): Tables {
    var recorded := RecordMessage(t, m, guildId, accountId, searchTs);
    recorded.(media := StoreAttachments(recorded.media, m.attachments, GetOr(m.id, MissingId), searchTs))
  }

  // ------------------------------------------- what the attachment loop leaves

  /** The URL of the last attachment with file id `k` and a truthy URL. */
  function LastUrl(atts: seq<Attachment>, k: string): string
    requires k in UrlFileIds(atts)
    decreases |atts|
  {
    if k in UrlFileIds(atts[1..]) then LastUrl(atts[1..], k) else atts[0].url.value
  }

  /** The row the first attachment with file id `k` and a truthy URL inserts. */
  function FirstRow(atts: seq<Attachment>, k: string, messageId: string, searchTs: Option<string>): MediaRow
    requires k in UrlFileIds(atts)
    decreases |atts|
  {
    if HasUrl(atts[0]) && FileId(atts[0]) == k then MediaRowOf(atts[0], messageId, searchTs)
    else FirstRow(atts[1..], k, messageId, searchTs)
  }

  /** The attachment loop's effect on one file id: a file id seen with a URL
      keeps the row it first had (the stored one, or the first such
      attachment's) with the last URL seen; any other row is untouched. */
  function MediaAt(media: map<string, MediaRow>, atts: seq<Attachment>, k: string, messageId: string, searchTs: Option<string>): MediaRow
    requires k in media || k in UrlFileIds(atts)
  {
    if k in UrlFileIds(atts) then
      (if k in media then media[k] else FirstRow(atts, k, messageId, searchTs)).(url := LastUrl(atts, k))
    else media[k]
  }

  /** The attachment loop adds exactly the file ids that carry a URL. */
  lemma {:induction false} StoreAttachmentsKeys(media: map<string, MediaRow>, atts: seq<Attachment>, messageId: string, searchTs: Option<string>)
    ensures StoreAttachments(media, atts, messageId, searchTs).Keys == media.Keys + UrlFileIds(atts)
    decreases |atts|
  {
    if atts != [] {
      var a := atts[0];
      var next := if HasUrl(a) then UpsertMedia(media, FileId(a), MediaRowOf(a, messageId, searchTs)) else media;
      StoreAttachmentsKeys(next, atts[1..], messageId, searchTs);
      UnionStep(StoreAttachments(next, atts[1..], messageId, searchTs).Keys, next.Keys, media.Keys,
                if HasUrl(a) then {FileId(a)} else {}, UrlFileIds(atts[1..]), UrlFileIds(atts));
    }
  }

  /** The attachment loop, file id by file id, is `MediaAt`. */
  lemma {:induction false} StoreAttachmentsAt(media: map<string, MediaRow>, atts: seq<Attachment>, k: string, messageId: string, searchTs: Option<string>)
    requires k in media || k in UrlFileIds(atts)
    ensures var r := StoreAttachments(media, atts, messageId, searchTs);
      k in r && r[k] == MediaAt(media, atts, k, messageId, searchTs)
    decreases |atts|
  {
    StoreAttachmentsKeys(media, atts, messageId, searchTs);
    if atts != [] {
      var a := atts[0];
      var rest := atts[1..];
      var next := if HasUrl(a) then UpsertMedia(media, FileId(a), MediaRowOf(a, messageId, searchTs)) else media;
      assert k in next || k in UrlFileIds(rest);
      StoreAttachmentsAt(next, rest, k, messageId, searchTs);
      if k in UrlFileIds(rest) {
        assert LastUrl(atts, k) == LastUrl(rest, k);
        if k !in media && HasUrl(a) && FileId(a) == k {
          assert FirstRow(atts, k, messageId, searchTs) == MediaRowOf(a, messageId, searchTs) == next[k];
        } else if k !in media {
          assert FirstRow(atts, k, messageId, searchTs) == FirstRow(rest, k, messageId, searchTs);
        }
      } else if HasUrl(a) && FileId(a) == k {
        assert LastUrl(atts, k) == a.url.value;
      }
    }
  }

  /** Running the attachment loop a second time on its own result changes nothing. */
  lemma StoreAttachmentsIdempotent(media: map<string, MediaRow>, atts: seq<Attachment>, messageId: string, searchTs: Option<string>)
    ensures var once := StoreAttachments(media, atts, messageId, searchTs);
      StoreAttachments(once, atts, messageId, searchTs) == once
  {
    var once := StoreAttachments(media, atts, messageId, searchTs);
    var twice := StoreAttachments(once, atts, messageId, searchTs);
    StoreAttachmentsKeys(media, atts, messageId, searchTs);
    StoreAttachmentsKeys(once, atts, messageId, searchTs);
    forall k | k in once.Keys ensures twice[k] == once[k] {
      StoreAttachmentsAt(media, atts, k, messageId, searchTs);
      StoreAttachmentsAt(once, atts, k, messageId, searchTs);
    }
  }

  /** What one message writes: the message row's `has_media` is set exactly
      when the message has attachments; the media keys grow by exactly the
      file ids of attachments with a truthy URL; the scope's message cursor
      (never its media cursor) becomes the page's search timestamp; a DM
      channel is added only in the `"@me"` scope; accounts are untouched. */
  lemma ApplyMessageEffect(t: Tables, m: ApiMessage, guildId: string, accountId: string, searchTs: Option<string>)
    ensures var r := ApplyMessage(t, m, guildId, accountId, searchTs);
      && GetOr(m.id, MissingId) in r.messages
      && r.messages[GetOr(m.id, MissingId)].hasMedia == (m.attachments != [])
      && r.messages[GetOr(m.id, MissingId)].content == GetOr(m.content, "")
      && r.media.Keys == t.media.Keys + UrlFileIds(m.attachments)
      && r.users.Keys == t.users.Keys + {GetOr(AuthorId(m), MissingId)}
      && r.guilds.Keys == t.guilds.Keys
      && (guildId in t.guilds ==> r.guilds[guildId] == t.guilds[guildId].(lastMessageTimestamp := searchTs))
      && (forall g :: g in t.guilds && g != guildId ==> r.guilds[g] == t.guilds[g])
      && (guildId != DmGuildId ==> r.channels == t.channels)
      && (guildId == DmGuildId ==> GetOr(m.channelId, MissingId) in r.channels
                                   && r.channels[GetOr(m.channelId, MissingId)].isDm)
      && r.accounts == t.accounts
  {
    var recorded := RecordMessage(t, m, guildId, accountId, searchTs);
    StoreAttachmentsKeys(recorded.media, m.attachments, GetOr(m.id, MissingId), searchTs);
  }

  /** Processing the same message twice leaves every table as processing it
      once did: re-fetching a page is harmless. */
  lemma ApplyMessageIdempotent(t: Tables, m: ApiMessage, guildId: string, accountId: string, searchTs: Option<string>)
    ensures var once := ApplyMessage(t, m, guildId, accountId, searchTs);
      ApplyMessage(once, m, guildId, accountId, searchTs) == once
  {
    var once := ApplyMessage(t, m, guildId, accountId, searchTs);
    var recorded := RecordMessage(t, m, guildId, accountId, searchTs);
    var mid := GetOr(m.id, MissingId);
    StoreAttachmentsIdempotent(recorded.media, m.attachments, mid, searchTs);
    assert RecordMessage(once, m, guildId, accountId, searchTs) == once;
  }

  // ------------------------------------------------------------------- pages

  /** The messages of one yielded page, in order. */
  function ApplyPage(t: Tables, msgs: seq<ApiMessage>, guildId: string, accountId: string, searchTs: Option<string>): Tables
    decreases |msgs|
  {
    if msgs == [] then t
    else ApplyPage(ApplyMessage(t, msgs[0], guildId, accountId, searchTs), msgs[1..], guildId, accountId, searchTs)
  }

  /** Every yielded page of one scope, in order. */
  function ApplyPages(t: Tables, pages: seq<Page>, guildId: string, accountId: string): Tables
    decreases |pages|
  {
    if pages == [] then t
    else ApplyPages(ApplyPage(t, pages[0].messages, guildId, accountId, pages[0].searchTimestamp), pages[1..], guildId, accountId)
  }

  /** A page leaves every guild row but the scope's alone, sets the scope's
      message cursor to the page's timestamp when the page has messages, never
      touches a media cursor, and never deletes a media row. */
  lemma {:induction false} ApplyPageEffect(t: Tables, msgs: seq<ApiMessage>, guildId: string, accountId: string, searchTs: Option<string>)
    ensures var r := ApplyPage(t, msgs, guildId, accountId, searchTs);
      && r.guilds.Keys == t.guilds.Keys
      && (forall g :: g in t.guilds && g != guildId ==> r.guilds[g] == t.guilds[g])
      && (guildId in t.guilds ==>
            r.guilds[guildId] == if msgs == [] then t.guilds[guildId] else t.guilds[guildId].(lastMessageTimestamp := searchTs))
      && t.media.Keys <= r.media.Keys
    decreases |msgs|
  {
    if msgs != [] {
      var next := ApplyMessage(t, msgs[0], guildId, accountId, searchTs);
      ApplyMessageEffect(t, msgs[0], guildId, accountId, searchTs);
      ApplyPageEffect(next, msgs[1..], guildId, accountId, searchTs);
    }
  }

  /** After a walk's pages the scope's resume point is the last page's search
      timestamp and its media cursor is what it was; other guilds stay. */
  lemma {:induction false} ApplyPagesGuilds(t: Tables, pages: seq<Page>, guildId: string, accountId: string)
    requires forall p :: p in pages ==> p.messages != []
    ensures var r := ApplyPages(t, pages, guildId, accountId);
      && r.guilds.Keys == t.guilds.Keys
      && (forall g :: g in t.guilds && g != guildId ==> r.guilds[g] == t.guilds[g])
      && (guildId in t.guilds && pages != [] ==>
            r.guilds[guildId] == t.guilds[guildId].(lastMessageTimestamp := pages[|pages| - 1].searchTimestamp))
      && (guildId in t.guilds && pages == [] ==> r.guilds[guildId] == t.guilds[guildId])
    decreases |pages|
  {
    if pages != [] {
      var next := ApplyPage(t, pages[0].messages, guildId, accountId, pages[0].searchTimestamp);
      ApplyPageEffect(t, pages[0].messages, guildId, accountId, pages[0].searchTimestamp);
      ApplyPagesGuilds(next, pages[1..], guildId, accountId);
      if |pages| > 1 {
        assert pages[1..][|pages| - 2] == pages[|pages| - 1];
      }
    }
  }

  /** No page deletes a media row. */
  lemma {:induction false} ApplyPagesKeepsMedia(t: Tables, pages: seq<Page>, guildId: string, accountId: string)
    ensures t.media.Keys <= ApplyPages(t, pages, guildId, accountId).media.Keys
    decreases |pages|
  {
    if pages != [] {
      var next := ApplyPage(t, pages[0].messages, guildId, accountId, pages[0].searchTimestamp);
      ApplyPageEffect(t, pages[0].messages, guildId, accountId, pages[0].searchTimestamp);
      ApplyPagesKeepsMedia(next, pages[1..], guildId, accountId);
    }
  }

  // ------------------------------------------------------------ scope walks

  /** `guild[2] if not args.deep_scrape else None`: guild walks resume from the media cursor. */
  function GuildStart(row: GuildRow, deepScrape: bool): Option<string> {
    if deepScrape then None else row.lastMediaTimestamp
  }

  /** `guild[3] if args.store_messages else guild[2]`, then `None` under deep scrape. */
  function DmStart(row: GuildRow, deepScrape: bool): Option<string> {
    if deepScrape then None
    else if StoreMessages then row.lastMessageTimestamp
    else row.lastMediaTimestamp
  }

  /** `Stalled`: the modelled server ran out of bodies during that scope's
      walk. `MissingDmScope`: no `"@me"` row, so `guild[3]` fails on None. */
  datatype RunEnd = Completed | Stalled(scope: Scope) | MissingDmScope

  datatype Run = Run(tables: Tables, end: RunEnd)

  /** The walk of one guild from `get_guilds()`'s snapshot row. */
  function GuildTrace(row: (string, GuildRow), server: map<string, seq<Reply>>, deepScrape: bool): Trace {
    Walk(FirstRequest(GuildScope(row.0), AnyMedia, GuildStart(row.1, deepScrape)), RepliesFor(server, row.0))
  }

  /** `process_guild_messages` over the guilds in the order fetched. */
  function GuildsRun(t: Tables, rows: seq<(string, GuildRow)>, server: map<string, seq<Reply>>, deepScrape: bool, accountId: string): Run
    decreases |rows|
  {
    if rows == [] then Run(t, Completed)
    else
      var trace := GuildTrace(rows[0], server, deepScrape);
      var next := ApplyPages(t, trace.pages, rows[0].0, accountId);
      if trace.end == NoMoreReplies then Run(next, Stalled(GuildScope(rows[0].0)))
      else GuildsRun(next, rows[1..], server, deepScrape, accountId)
  }

  /** `process_dms`. */
  function DmRun(t: Tables, replies: seq<Reply>, deepScrape: bool, accountId: string): Run {
    if DmGuildId !in t.guilds then Run(t, MissingDmScope)
    else
      var trace := Walk(FirstRequest(DmScope, AnyMedia, DmStart(t.guilds[DmGuildId], deepScrape)), replies);
      Run(ApplyPages(t, trace.pages, DmGuildId, accountId), if trace.end == Exhausted then Completed else Stalled(DmScope))
  }

  /** A DM run resumes from the stored message cursor (from the start under
      deep scrape), stores the last page's timestamp as the new message
      cursor, keeps the media cursor, and deletes no media row. */
  lemma DmRunResumes(t: Tables, replies: seq<Reply>, deepScrape: bool, accountId: string)
    requires DmGuildId in t.guilds
    ensures var q := FirstRequest(DmScope, AnyMedia, DmStart(t.guilds[DmGuildId], deepScrape));
      && (deepScrape ==> q.cursor.None?)
      && (!deepScrape && Truthy(t.guilds[DmGuildId].lastMessageTimestamp) ==> q.cursor == t.guilds[DmGuildId].lastMessageTimestamp)
    ensures var trace := Walk(FirstRequest(DmScope, AnyMedia, DmStart(t.guilds[DmGuildId], deepScrape)), replies);
      var r := DmRun(t, replies, deepScrape, accountId).tables;
      && DmGuildId in r.guilds
      && r.guilds[DmGuildId].lastMediaTimestamp == t.guilds[DmGuildId].lastMediaTimestamp
      && (trace.pages != [] ==> r.guilds[DmGuildId].lastMessageTimestamp == trace.pages[|trace.pages| - 1].searchTimestamp)
      && t.media.Keys <= r.media.Keys
  {
    var trace := Walk(FirstRequest(DmScope, AnyMedia, DmStart(t.guilds[DmGuildId], deepScrape)), replies);
    WalkPages(FirstRequest(DmScope, AnyMedia, DmStart(t.guilds[DmGuildId], deepScrape)), replies);
    ApplyPagesGuilds(t, trace.pages, DmGuildId, accountId);
    ApplyPagesKeepsMedia(t, trace.pages, DmGuildId, accountId);
  }

  /** A guild run never changes any guild's media cursor, the very column each
      guild walk resumes from, and deletes no media row. */
  lemma {:induction false} GuildsRunKeepsMediaCursors(t: Tables, rows: seq<(string, GuildRow)>, server: map<string, seq<Reply>>, deepScrape: bool, accountId: string)
    ensures var r := GuildsRun(t, rows, server, deepScrape, accountId).tables;
      && r.guilds.Keys == t.guilds.Keys
      && (forall g :: g in t.guilds ==> r.guilds[g].lastMediaTimestamp == t.guilds[g].lastMediaTimestamp)
      && t.media.Keys <= r.media.Keys
    decreases |rows|
  {
    if rows != [] {
      var trace := GuildTrace(rows[0], server, deepScrape);
      WalkPages(FirstRequest(GuildScope(rows[0].0), AnyMedia, GuildStart(rows[0].1, deepScrape)), RepliesFor(server, rows[0].0));
      ApplyPagesGuilds(t, trace.pages, rows[0].0, accountId);
      ApplyPagesKeepsMedia(t, trace.pages, rows[0].0, accountId);
      var next := ApplyPages(t, trace.pages, rows[0].0, accountId);
      GuildsRunKeepsMediaCursors(next, rows[1..], server, deepScrape, accountId);
    }
  }

  // ---------------------------------------------------------- guild listing

  /** The 200 branch of `get_guilds`: every listed guild upserted in order. */
  function InsertGuilds(gs: map<string, GuildRow>, list: seq<ApiGuild>): map<string, GuildRow>
    decreases |list|
  {
    if list == [] then gs else InsertGuilds(UpsertGuild(gs, list[0].id, list[0].name), list[1..])
  }

  /** Listing guilds adds exactly the listed ids and keeps both cursors of
      every guild already known; new guilds start without cursors. */
  lemma {:induction false} InsertGuildsEffect(gs: map<string, GuildRow>, list: seq<ApiGuild>)
    ensures var r := InsertGuilds(gs, list);
      && r.Keys == gs.Keys + GuildIds(list)
      && (forall k :: k in gs ==> (r[k].lastMediaTimestamp == gs[k].lastMediaTimestamp
                                  && r[k].lastMessageTimestamp == gs[k].lastMessageTimestamp))
      && (forall k :: k in r && k !in gs ==> r[k].lastMediaTimestamp.None? && r[k].lastMessageTimestamp.None?)
    decreases |list|
  {
    if list != [] {
      InsertGuildsEffect(UpsertGuild(gs, list[0].id, list[0].name), list[1..]);
    }
  }

  /** The state every scraper starts from: the account upserted and the DM
      scope registered as guild `"@me"` named `"DMs"`. */
  function Initialized(t: Tables, userId: string, username: string, token: string): Tables {
    t.(accounts := UpsertAccount(t.accounts, userId, username, token),
       guilds := UpsertGuild(t.guilds, DmGuildId, "DMs"))
  }

  // ------------------------------------------------------------ the scraper

  class DiscordScraper {
    const userId: string
    const username: string
    const token: string
    const db: Database
    var startCount: nat
    var endCount: nat
    var newCount: int

    /** Media rows are never deleted, so the count taken at start-up never
        exceeds the current one. */
    ghost predicate Valid()
      reads this, db
    {
      startCount <= |db.media|
    }

    /** `__init__` followed by `async_init` on a database file holding `persisted`. */
    constructor(userId: string, username: string, token: string, persisted: Tables)
      ensures this.userId == userId && this.username == username && this.token == token
      ensures fresh(db) && db.State() == Initialized(persisted, userId, username, token)
      ensures startCount == |db.media| && Valid()
    {
      var d := new Database(persisted);
      d.InsertScrapingAccount(userId, username, token);
      d.InsertGuild(DmGuildId, "DMs");
      var n := d.CountMedia();
      this.userId, this.username, this.token := userId, username, token;
      db := d;
      startCount := n;
      endCount, newCount := 0, 0;
    }

    /** `get_guilds`: on 200 every listed guild is upserted; any other status
        raises and nothing is written. */
    method FetchGuilds(reply: GuildsReply) returns (ok: bool)
      requires Valid()
      modifies db
      ensures Valid()
      ensures ok <==> reply.status == 200
      ensures db.State() == old(db.State()).(guilds := if ok then InsertGuilds(old(db.guilds), reply.guilds) else old(db.guilds))
    {
      if reply.status != 200 {
        return false;
      }
      var i := 0;
      while i < |reply.guilds|
        invariant 0 <= i <= |reply.guilds|
        invariant db.State() == old(db.State()).(guilds := db.guilds)
        invariant InsertGuilds(old(db.guilds), reply.guilds) == InsertGuilds(db.guilds, reply.guilds[i..])
      {
        assert reply.guilds[i..][1..] == reply.guilds[i + 1..];
        db.InsertGuild(reply.guilds[i].id, reply.guilds[i].name);
        i := i + 1;
      }
      return true;
    }

    /** The 200 branch of `get_guild_channels`: every text channel of the
        response inserted in order, the others passed over. */
    method StoreChannelRows(chans: seq<ApiChannel>, guildId: string)
      requires Valid()
      modifies db
      ensures Valid()
      ensures db.State() == old(db.State()).(channels := StoreTextChannels(old(db.channels), chans, guildId))
    {
      var k := 0;
      while k < |chans|
        invariant 0 <= k <= |chans|
        invariant db.State() == old(db.State()).(channels := db.channels)
        invariant StoreTextChannels(old(db.channels), chans, guildId) == StoreTextChannels(db.channels, chans[k..], guildId)
      {
        var c := chans[k];
        assert chans[k..][1..] == chans[k + 1..];
        if IsTextChannel(c) {
          db.InsertChannel(GetOr(c.id, MissingId), GetOr(c.name, ""), guildId, GetOr(c.nsfw, false), false);
        }
        k := k + 1;
      }
    }

    /** The guilds `get_guild_channels(None, None)` visits: the rows of
        `get_guilds()`, in that order, one per stored allow-listed guild. */
    method VisitOrder() returns (order: seq<string>)
      ensures forall id :: id in order <==> id in db.guilds && Listed(id)
      ensures forall i, j :: 0 <= i < j < |order| ==> order[i] != order[j]
    {
      var rows := db.GetGuilds();
      order := seq(|rows|, k requires 0 <= k < |rows| => rows[k].0);
      forall id | id in db.guilds && Listed(id) ensures id in order {
        var k :| 0 <= k < |rows| && rows[k].0 == id;
        assert order[k] == id;
      }
    }

    /** The loop of `get_guild_channels` over a visiting order: one channel
        listing per guild, a 429 repeating the same guild. */
    method VisitGuilds(order: seq<string>, replies: seq<ChannelReply>) returns (end: ListingEnd)
      requires Valid()
      modifies db
      ensures Valid()
      ensures var l := ListChannels(old(db.guilds), old(db.channels), order, replies);
        db.State() == old(db.State()).(guilds := l.guilds, channels := l.channels) && end == l.end
    {
      var i, j := 0, 0;
      while i < |order|
        invariant 0 <= i <= |order| && 0 <= j <= |replies|
        invariant Valid()
        invariant db.State() == old(db.State()).(guilds := db.guilds, channels := db.channels)
        invariant ListChannels(old(db.guilds), old(db.channels), order, replies)
          == ListChannels(db.guilds, db.channels, order[i..], replies[j..])
        decreases |replies| - j
      {
        if j == |replies| {
          return NoMoreResponses;
        }
        var reply := replies[j];
        var guildId := order[i];
        assert replies[j..][1..] == replies[j + 1..];
        assert order[i..][1..] == order[i + 1..];
        j := j + 1;
        var action := Dispatch(reply.status);
        if action == StoreChannels {
          StoreChannelRows(reply.channels, guildId);
          i := i + 1;
        } else if action == RetryGuild {
          // the source sleeps five seconds and calls itself on this one guild
        } else if action == DropGuild {
          db.RemoveGuild(guildId);
          i := i + 1;
        } else {
          return Raised(reply.status);
        }
      }
      end := ListedAll;
    }

    /** `get_guild_channels(None, None)`: one listing per guild `get_guilds()`
        returns, in that order, as `ListChannels` states. */
    method GetGuildChannels(replies: seq<ChannelReply>) returns (order: seq<string>, end: ListingEnd)
      requires Valid()
      modifies db
      ensures Valid()
      ensures forall id :: id in order <==> id in old(db.guilds) && Listed(id)
      ensures forall i, j :: 0 <= i < j < |order| ==> order[i] != order[j]
      ensures var l := ListChannels(old(db.guilds), old(db.channels), order, replies);
        db.State() == old(db.State()).(guilds := l.guilds, channels := l.channels) && end == l.end
    {
      order := VisitOrder();
      end := VisitGuilds(order, replies);
    }

    /** The four writes `process_message` makes before its attachment loop. */
    method RecordMessageRows(m: ApiMessage, guildId: string, searchTs: Option<string>)
      requires Valid()
      modifies db
      ensures Valid()
      ensures db.State() == RecordMessage(old(db.State()), m, guildId, userId, searchTs)
    {
      var messageId := GetOr(m.id, MissingId);
      var channelId := GetOr(m.channelId, MissingId);
      var authorId := GetOr(AuthorId(m), MissingId);
      var hasMedia := m.attachments != [];
      db.InsertMessage(messageId, MessageRow(GetOr(m.content, ""), GetOr(m.timestamp, ""), GetOr(m.editedTimestamp, ""),
                                             authorId, guildId, channelId, userId, searchTs, hasMedia));
      db.InsertUser(authorId, GetOr(AuthorName(m), ""));
      db.UpdateGuildTimestamp(guildId, searchTs, if StoreMessages then MessageCursor else MediaCursor);
      if guildId == DmGuildId {
        db.InsertChannel(channelId, authorId, guildId, false, true);
      }
    }

    /** The attachment loop of `process_message`: one media upsert per
        attachment with a truthy URL, in order. */
    method StoreAttachmentRows(atts: seq<Attachment>, messageId: string, searchTs: Option<string>)
      requires Valid()
      modifies db
      ensures Valid()
      ensures db.State() == old(db.State()).(media := StoreAttachments(old(db.media), atts, messageId, searchTs))
    {
      var i := 0;
      while i < |atts|
        invariant 0 <= i <= |atts|
        invariant db.State() == old(db.State()).(media := db.media)
        invariant StoreAttachments(old(db.media), atts, messageId, searchTs) == StoreAttachments(db.media, atts[i..], messageId, searchTs)
      {
        var a := atts[i];
        assert atts[i..][1..] == atts[i + 1..];
        if HasUrl(a) {
          db.InsertMedia(FileId(a), MediaRow(a.url.value, a.filename, GetOr(a.size, 0), a.contentType,
                                             GetOr(a.width, 0), GetOr(a.height, 0), messageId, searchTs));
        }
        i := i + 1;
      }
      StoreAttachmentsKeys(old(db.media), atts, messageId, searchTs);
      CardinalityGrows(old(db.media), db.media);
    }

    /** `process_message`: the message's rows, then one media upsert per
        attachment with a truthy URL. */
    method ProcessMessage(m: ApiMessage, guildId: string, searchTs: Option<string>)
      requires Valid()
      modifies db
      ensures Valid()
      ensures db.State() == ApplyMessage(old(db.State()), m, guildId, userId, searchTs)
    {
      RecordMessageRows(m, guildId, searchTs);
      StoreAttachmentRows(m.attachments, GetOr(m.id, MissingId), searchTs);
    }

    /** The `async for` over a walk's pages and the `for` over each page's messages. */
    method ProcessPages(pages: seq<Page>, guildId: string)
      requires Valid()
      modifies db
      ensures Valid()
      ensures db.State() == ApplyPages(old(db.State()), pages, guildId, userId)
    {
      var i := 0;
      while i < |pages|
        invariant 0 <= i <= |pages|
        invariant Valid()
        invariant ApplyPages(old(db.State()), pages, guildId, userId) == ApplyPages(db.State(), pages[i..], guildId, userId)
      {
        var msgs := pages[i].messages;
        var searchTs := pages[i].searchTimestamp;
        assert pages[i..][1..] == pages[i + 1..];
        var j := 0;
        while j < |msgs|
          invariant 0 <= j <= |msgs|
          invariant Valid()
          invariant ApplyPages(old(db.State()), pages, guildId, userId)
            == ApplyPages(ApplyPage(db.State(), msgs[j..], guildId, userId, searchTs), pages[i + 1..], guildId, userId)
        {
          assert msgs[j..][1..] == msgs[j + 1..];
          ProcessMessage(msgs[j], guildId, searchTs);
          j := j + 1;
        }
        i := i + 1;
      }
    }

    /** `process_guild_messages`: every guild `get_guilds()` returns, walked
        from its stored media cursor (or from the start under deep scrape). */
    method ProcessGuildMessages(deepScrape: bool, server: map<string, seq<Reply>>)
      returns (rows: seq<(string, GuildRow)>, end: RunEnd)
      requires Valid()
      modifies db
      ensures Valid()
      ensures forall i :: 0 <= i < |rows| ==> rows[i].0 in old(db.guilds) && rows[i].1 == old(db.guilds)[rows[i].0] && Listed(rows[i].0)
      ensures forall id :: id in old(db.guilds) && Listed(id) ==> exists i :: 0 <= i < |rows| && rows[i].0 == id
      ensures forall i, j :: 0 <= i < j < |rows| ==> rows[i].0 != rows[j].0
      ensures Run(db.State(), end) == GuildsRun(old(db.State()), rows, server, deepScrape, userId)
    {
      rows := db.GetGuilds();
      var i := 0;
      while i < |rows|
        invariant 0 <= i <= |rows|
        invariant Valid()
        invariant GuildsRun(old(db.State()), rows, server, deepScrape, userId) == GuildsRun(db.State(), rows[i..], server, deepScrape, userId)
      {
        var guildId := rows[i].0;
        assert rows[i..][1..] == rows[i + 1..];
        var trace := SearchMedia(GuildScope(guildId), AnyMedia, GuildStart(rows[i].1, deepScrape), RepliesFor(server, guildId));
        ProcessPages(trace.pages, guildId);
        if trace.end == NoMoreReplies {
          return rows, Stalled(GuildScope(guildId));
        }
        i := i + 1;
      }
      end := Completed;
    }

    /** `process_dms`. */
    method ProcessDms(deepScrape: bool, replies: seq<Reply>) returns (end: RunEnd)
      requires Valid()
      modifies db
      ensures Valid()
      ensures Run(db.State(), end) == DmRun(old(db.State()), replies, deepScrape, userId)
    {
      var row := db.GetDmGuild();
      if row.None? {
        return MissingDmScope;
      }
      var start := DmStart(row.value, deepScrape);
      var trace := SearchMedia(DmScope, AnyMedia, start, replies);
      ProcessPages(trace.pages, DmGuildId);
      end := if trace.end == Exhausted then Completed else Stalled(DmScope);
    }

    /** `get_new_count`: the media rows added since start-up, never negative. */
    method GetNewCount() returns (n: int)
      requires Valid()
      modifies this`endCount, this`newCount
      ensures endCount == |db.media| && newCount == n
      ensures n == |db.media| - startCount && n >= 0
    {
      endCount := db.CountMedia();
      newCount := endCount - startCount;
      n := newCount;
    }
  }
}
