/** The SQLite store of dump_messages.py (`Database`), one map per table keyed
    by primary id. Every `insert_*` is an insert-or-update whose
    `ON CONFLICT(id) DO UPDATE SET` clause names the only columns an id clash
    changes; the pure functions below say that, and the `Database` class
    applies them to its tables in place. */
module Store {
  import opened Common
  import opened Api
  import opened Listing

  datatype AccountRow = AccountRow(name: string, token: string)

  /** A `guilds` row: the two resume cursors are NULL until written. */
  datatype GuildRow = GuildRow(name: string, lastMediaTimestamp: Option<string>, lastMessageTimestamp: Option<string>)

  datatype MessageRow = MessageRow(
    content: string,
    timestamp: string,
    editedTimestamp: string,
    userId: string,
    guildId: string,
    channelId: string,
    accountId: string,
    searchTimestamp: Option<string>,
    hasMedia: bool)

  datatype MediaRow = MediaRow(
    url: string,
    filename: Option<string>,
    size: int,
    contentType: Option<string>,
    width: int,
    height: int,
    messageId: string,
    searchTimestamp: Option<string>)

  /** All six tables at one moment. */
  datatype Tables = Tables(
    accounts: map<string, AccountRow>,
    users: map<string, string>,
    guilds: map<string, GuildRow>,
    channels: map<string, ChannelRow>,
    messages: map<string, MessageRow>,
    media: map<string, MediaRow>)

  /** `update_guild_timestamp` type 0 is the media cursor, any other the message cursor. */
  const MediaCursor: int := 0
  const MessageCursor: int := 1

  /** The guilds `get_guilds()` is restricted to. */
  const AllowedGuilds: set<string> := {
    "828457542984269824", "868647576147214346", "946184119681974312", "981383507240714251",
    "987930226510164048", "1008185503675322438", "1010957855781826581", "1014622053447503963",
    "1044790295709110302", "1048365633370333257", "1074390145949773935", "1075901389483560970",
    "1082723000018817084", "1092654605508296796", "1101492300569391155", "1106578934096723989",
    "1122129950829453394", "1191181354176622643", "1214770852445294675", "1267923275523031181",
    "1284154644972441672", "1323109688098820116", "1331814509534249051"}

  /** The two list-comprehension filters of `get_guilds()`: on the allow-list,
      then not the direct-message scope. */
  predicate Listed(id: string) {
    id in AllowedGuilds && id != DmGuildId
  }

  /** `insert_guild`: a new guild has no cursors; a known one only gets its name replaced. */
  function UpsertGuild(gs: map<string, GuildRow>, id: string, name: string): (r: map<string, GuildRow>)
    ensures r.Keys == gs.Keys + {id} && r[id].name == name
    ensures id in gs ==> (r[id].lastMediaTimestamp == gs[id].lastMediaTimestamp
                          && r[id].lastMessageTimestamp == gs[id].lastMessageTimestamp)
    ensures id !in gs ==> r[id].lastMediaTimestamp.None? && r[id].lastMessageTimestamp.None?
    ensures forall k :: k in gs && k != id ==> r[k] == gs[k]
  {
    if id in gs then gs[id := gs[id].(name := name)] else gs[id := GuildRow(name, None, None)]
  }

  /** `insert_user`: the name is the only column. */
  function UpsertUser(us: map<string, string>, id: string, name: string): (r: map<string, string>)
    ensures r.Keys == us.Keys + {id} && r[id] == name
    ensures forall k :: k in us && k != id ==> r[k] == us[k]
  {
    us[id := name]
  }

  /** `insert_scraping_account`: name and token are both replaced. */
  function UpsertAccount(accounts: map<string, AccountRow>, id: string, name: string, token: string): (r: map<string, AccountRow>)
    ensures r.Keys == accounts.Keys + {id} && r[id] == AccountRow(name, token)
    ensures forall k :: k in accounts && k != id ==> r[k] == accounts[k]
  {
    accounts[id := AccountRow(name, token)]
  }

  /** `insert_message`: on a clash only `content` and `has_media` change;
      timestamps, author, guild, channel, account and search timestamp keep
      their first values. */
  function UpsertMessage(ms: map<string, MessageRow>, id: string, row: MessageRow): (r: map<string, MessageRow>)
    ensures r.Keys == ms.Keys + {id}
    ensures r[id].content == row.content && r[id].hasMedia == row.hasMedia
    ensures id in ms ==> (&& r[id].timestamp == ms[id].timestamp && r[id].editedTimestamp == ms[id].editedTimestamp
                          && r[id].userId == ms[id].userId && r[id].guildId == ms[id].guildId
                          && r[id].channelId == ms[id].channelId && r[id].accountId == ms[id].accountId
                          && r[id].searchTimestamp == ms[id].searchTimestamp)
    ensures id !in ms ==> r[id] == row
    ensures forall k :: k in ms && k != id ==> r[k] == ms[k]
  {
    if id in ms then ms[id := ms[id].(content := row.content, hasMedia := row.hasMedia)] else ms[id := row]
  }

  /** `insert_media`: on a `file_id` clash only `url` changes, so the media
      count moves only when the file id is new. */
  function UpsertMedia(media: map<string, MediaRow>, id: string, row: MediaRow): (r: map<string, MediaRow>)
    ensures r.Keys == media.Keys + {id} && r[id].url == row.url
    ensures id in media ==> r[id] == media[id].(url := row.url) && |r| == |media|
    ensures id !in media ==> r[id] == row && |r| == |media| + 1
    ensures forall k :: k in media && k != id ==> r[k] == media[k]
  {
    if id in media then media[id := media[id].(url := row.url)] else media[id := row]
  }

  /** Re-inserting a file id a second time with the same values changes nothing more. */
  lemma UpsertMediaIdempotent(media: map<string, MediaRow>, id: string, row: MediaRow)
    ensures UpsertMedia(UpsertMedia(media, id, row), id, row) == UpsertMedia(media, id, row)
  {
  }

  /** `update_guild_timestamp`: an UPDATE, so an absent guild changes nothing;
      kind 0 writes only the media cursor, any other kind only the message
      cursor, and no other guild's row moves. */
  function StampGuild(gs: map<string, GuildRow>, id: string, timestamp: Option<string>, kind: int): (r: map<string, GuildRow>)
    ensures r.Keys == gs.Keys
    ensures id in gs && kind == MediaCursor ==> r[id] == gs[id].(lastMediaTimestamp := timestamp)
    ensures id in gs && kind != MediaCursor ==> r[id] == gs[id].(lastMessageTimestamp := timestamp)
    ensures forall k :: k in gs && k != id ==> r[k] == gs[k]
  {
    if id !in gs then gs
    else if kind == MediaCursor then gs[id := gs[id].(lastMediaTimestamp := timestamp)]
    else gs[id := gs[id].(lastMessageTimestamp := timestamp)]
  }

  /** The guild table, the channels, users, messages and media as they are. */
  class Database {
    var accounts: map<string, AccountRow>
    var users: map<string, string>
    var guilds: map<string, GuildRow>
    var channels: map<string, ChannelRow>
    var messages: map<string, MessageRow>
    var media: map<string, MediaRow>

    function State(): Tables
      reads this
    {
      Tables(accounts, users, guilds, channels, messages, media)
    }

    /** Opening the database file: `CREATE TABLE IF NOT EXISTS` keeps whatever
        a previous run stored. */
    constructor(persisted: Tables)
      ensures State() == persisted
    {
      accounts, users, guilds := persisted.accounts, persisted.users, persisted.guilds;
      channels, messages, media := persisted.channels, persisted.messages, persisted.media;
    }

    method InsertGuild(id: string, name: string)
      modifies this`guilds
      ensures guilds == UpsertGuild(old(guilds), id, name)
    {
      guilds := UpsertGuild(guilds, id, name);
    }

    method InsertUser(id: string, name: string)
      modifies this`users
      ensures users == UpsertUser(old(users), id, name)
    {
      users := UpsertUser(users, id, name);
    }

    method InsertChannel(id: string, name: string, guildId: string, isNsfw: bool, isDm: bool)
      modifies this`channels
      ensures channels == UpsertChannel(old(channels), id, ChannelRow(name, isDm, isNsfw, guildId))
    {
      channels := UpsertChannel(channels, id, ChannelRow(name, isDm, isNsfw, guildId));
    }

    method InsertScrapingAccount(id: string, name: string, token: string)
      modifies this`accounts
      ensures accounts == UpsertAccount(old(accounts), id, name, token)
    {
      accounts := UpsertAccount(accounts, id, name, token);
    }

    method InsertMessage(id: string, row: MessageRow)
      modifies this`messages
      ensures messages == UpsertMessage(old(messages), id, row)
    {
      messages := UpsertMessage(messages, id, row);
    }

    method InsertMedia(fileId: string, row: MediaRow)
      modifies this`media
      ensures media == UpsertMedia(old(media), fileId, row)
    {
      media := UpsertMedia(media, fileId, row);
    }

    method UpdateGuildTimestamp(id: string, timestamp: Option<string>, kind: int)
      modifies this`guilds
      ensures guilds == StampGuild(old(guilds), id, timestamp, kind)
    {
      guilds := StampGuild(guilds, id, timestamp, kind);
    }

    /** `remove_guild`: exactly that guild row goes; nothing else is touched. */
    method RemoveGuild(id: string)
      modifies this`guilds
      ensures guilds == old(guilds) - {id}
    {
      guilds := guilds - {id};
    }

    /** `SELECT COUNT(*) FROM media`. */
    method CountMedia() returns (n: nat)
      ensures n == |media|
    {
      n := |media|;
    }

    /** `get_guilds()`: every stored guild on the allow-list except the
        direct-message scope, each once, in an order SQLite chooses. */
    method GetGuilds() returns (rows: seq<(string, GuildRow)>)
      ensures forall i :: 0 <= i < |rows| ==> rows[i].0 in guilds && rows[i].1 == guilds[rows[i].0] && Listed(rows[i].0)
      ensures forall id :: id in guilds && Listed(id) ==> exists i :: 0 <= i < |rows| && rows[i].0 == id
      ensures forall i, j :: 0 <= i < j < |rows| ==> rows[i].0 != rows[j].0
    {
      rows := [];
      var remaining := guilds.Keys;
      while remaining != {}
        invariant remaining <= guilds.Keys
        invariant forall i :: 0 <= i < |rows| ==> rows[i].0 in guilds && rows[i].1 == guilds[rows[i].0] && Listed(rows[i].0)
        invariant forall i :: 0 <= i < |rows| ==> rows[i].0 !in remaining
        invariant forall id :: id in guilds && id !in remaining && Listed(id) ==> exists i :: 0 <= i < |rows| && rows[i].0 == id
        invariant forall i, j :: 0 <= i < j < |rows| ==> rows[i].0 != rows[j].0
        decreases remaining
      {
        var id :| id in remaining;
        ghost var before := rows;
        if id in AllowedGuilds && id !in {DmGuildId} {
          rows := rows + [(id, guilds[id])];
          assert rows[|rows| - 1].0 == id;
        }
        forall other | other in guilds && other !in remaining && Listed(other)
          ensures exists i :: 0 <= i < |rows| && rows[i].0 == other
        {
          var i :| 0 <= i < |before| && before[i].0 == other;
          assert rows[i] == before[i];
        }
        remaining := remaining - {id};
      }
    }

    /** `get_guilds(get_dms=True)`: the direct-message scope's row, if stored. */
    method GetDmGuild() returns (row: Option<GuildRow>)
      ensures row.Some? <==> DmGuildId in guilds
      ensures row.Some? ==> row.value == guilds[DmGuildId]
    {
      row := if DmGuildId in guilds then Some(guilds[DmGuildId]) else None;
    }
  }
}
