/** The `Database` class of the earlier variant (`main.py`): five tables, one
    cursor column per guild, media rows keyed by attachment id and no
    message table. */
module LegacyStore {
  import opened Common
  import opened Api
  import opened Listing

  /** A `guilds` row: `name`, then `last_timestamp`, which `update_guild_timestamp`
      alone writes. */
  datatype GuildRow = GuildRow(name: string, lastTimestamp: Option<string>)

  /** A `media` row: everything the attachment and its message supply. */
  datatype MediaRow = MediaRow(
    url: string,
    filename: Option<string>,
    size: int,
    contentType: Option<string>,
    width: int,
    height: int,
    userId: Option<string>,
    guildId: string,
    channelId: Option<string>,
    accountId: string,
    timestamp: Option<string>,
    searchTimestamp: Option<string>)

  datatype Tables = Tables(
    accounts: map<string, string>,
    users: map<string, string>,
    guilds: map<string, GuildRow>,
    channels: map<string, ChannelRow>,
    media: map<string, MediaRow>)

  /** `insert_guild`: a new guild has no cursor; a known one keeps its cursor
      and takes the new name. */
  function UpsertGuild(gs: map<string, GuildRow>, id: string, name: string): (r: map<string, GuildRow>)
    ensures r.Keys == gs.Keys + {id}
    ensures r[id].name == name
    ensures r[id].lastTimestamp == if id in gs then gs[id].lastTimestamp else None
    ensures forall k :: k in gs && k != id ==> r[k] == gs[k]
  {
    if id in gs then gs[id := gs[id].(name := name)] else gs[id := GuildRow(name, None)]
  }

  /** `insert_scraping_account`: the account's name, inserted or replaced. */
  function UpsertAccount(accounts: map<string, string>, id: string, name: string): (r: map<string, string>)
    ensures r.Keys == accounts.Keys + {id}
    ensures r[id] == name
    ensures forall k :: k in accounts && k != id ==> r[k] == accounts[k]
  {
    accounts[id := name]
  }

  /** `insert_media`: a new file id gets the whole row; on a clash only `url`
      is replaced and every other column keeps its first value. */
  function UpsertMedia(media: map<string, MediaRow>, fileId: string, row: MediaRow): (r: map<string, MediaRow>)
    ensures r.Keys == media.Keys + {fileId}
    ensures r[fileId] == if fileId in media then media[fileId].(url := row.url) else row
    ensures forall k :: k in media && k != fileId ==> r[k] == media[k]
    ensures |r| == if fileId in media then |media| else |media| + 1
  {
    if fileId in media then media[fileId := media[fileId].(url := row.url)] else media[fileId := row]
  }

  /** `update_guild_timestamp`: an `UPDATE ... WHERE id = ?`, so an unknown
      guild is not created and no other guild is touched. */
  function StampGuild(gs: map<string, GuildRow>, id: string, timestamp: Option<string>): (r: map<string, GuildRow>)
    ensures r.Keys == gs.Keys
    ensures id in gs ==> r[id] == gs[id].(lastTimestamp := timestamp)
    ensures forall k :: k in gs && k != id ==> r[k] == gs[k]
  {
    if id in gs then gs[id := gs[id].(lastTimestamp := timestamp)] else gs
  }

  /** The statement `insert_user` executes names the columns `(id, name)`,
      lists three placeholders and binds two parameters. SQLite prepares an
      INSERT only when the column list and the value list have the same
      length, and executes it only when every placeholder is bound. */
  const UserColumns: nat := 2
  const UserPlaceholders: nat := 3
  const UserParameters: nat := 2

  predicate StatementAccepted(columns: nat, placeholders: nat, parameters: nat) {
    columns == placeholders && placeholders == parameters
  }

  class Database {
    var accounts: map<string, string>
    var users: map<string, string>
    var guilds: map<string, GuildRow>
    var channels: map<string, ChannelRow>
    var media: map<string, MediaRow>

    function State(): Tables
      reads this
    {
      Tables(accounts, users, guilds, channels, media)
    }

    /** Opening the database file keeps whatever a previous run stored. */
    constructor(persisted: Tables)
      ensures State() == persisted
    {
      accounts, users, guilds := persisted.accounts, persisted.users, persisted.guilds;
      channels, media := persisted.channels, persisted.media;
    }

    method InsertGuild(id: string, name: string)
      modifies this`guilds
      ensures guilds == UpsertGuild(old(guilds), id, name)
    {
      guilds := UpsertGuild(guilds, id, name);
    }

    /** `insert_user`: the statement is rejected, so the call raises and the
        users table is never written. */
    method InsertUser(id: Option<string>, name: Option<string>, channelId: Option<string>) returns (accepted: bool)
      ensures !accepted
    {
      accepted := StatementAccepted(UserColumns, UserPlaceholders, UserParameters);
    }

    method InsertChannel(id: string, name: string, guildId: string, isNsfw: bool, isDm: bool)
      modifies this`channels
      ensures channels == UpsertChannel(old(channels), id, ChannelRow(name, isDm, isNsfw, guildId))
    {
      channels := UpsertChannel(channels, id, ChannelRow(name, isDm, isNsfw, guildId));
    }

    method InsertScrapingAccount(id: string, name: string)
      modifies this`accounts
      ensures accounts == UpsertAccount(old(accounts), id, name)
    {
      accounts := UpsertAccount(accounts, id, name);
    }

    method InsertMedia(fileId: string, row: MediaRow)
      modifies this`media
      ensures media == UpsertMedia(old(media), fileId, row)
    {
      media := UpsertMedia(media, fileId, row);
    }

    method UpdateGuildTimestamp(id: string, timestamp: Option<string>)
      modifies this`guilds
      ensures guilds == StampGuild(old(guilds), id, timestamp)
    {
      guilds := StampGuild(guilds, id, timestamp);
    }

    /** `remove_guild`: exactly that guild row goes. */
    method RemoveGuild(id: string)
      modifies this`guilds
      ensures guilds == old(guilds) - {id}
    {
      guilds := guilds - {id};
    }

    /** `SELECT COUNT(*) FROM media`. */
    method CountMedia() returns (n: nat)
      ensures n == |media|
    {
      n := |media|;
    }

    /** `get_guilds()`: every stored guild except the direct-message scope,
        each once, in an order SQLite chooses. There is no allow-list here. */
    method GetGuilds() returns (rows: seq<(string, GuildRow)>)
      ensures forall i :: 0 <= i < |rows| ==> rows[i].0 in guilds && rows[i].1 == guilds[rows[i].0] && rows[i].0 != DmGuildId
      ensures forall id :: id in guilds && id != DmGuildId ==> exists i :: 0 <= i < |rows| && rows[i].0 == id
      ensures forall i, j :: 0 <= i < j < |rows| ==> rows[i].0 != rows[j].0
    {
      rows := [];
      var remaining := guilds.Keys;
      while remaining != {}
        invariant remaining <= guilds.Keys
        invariant forall i :: 0 <= i < |rows| ==> rows[i].0 in guilds && rows[i].1 == guilds[rows[i].0] && rows[i].0 != DmGuildId
        invariant forall i :: 0 <= i < |rows| ==> rows[i].0 !in remaining
        invariant forall id :: id in guilds && id !in remaining && id != DmGuildId ==> exists i :: 0 <= i < |rows| && rows[i].0 == id
        invariant forall i, j :: 0 <= i < j < |rows| ==> rows[i].0 != rows[j].0
        decreases remaining
      {
        var id :| id in remaining;
        ghost var before := rows;
        if id != DmGuildId {
          rows := rows + [(id, guilds[id])];
          assert rows[|rows| - 1].0 == id;
        }
        forall other | other in guilds && other !in remaining && other != DmGuildId
          ensures exists i :: 0 <= i < |rows| && rows[i].0 == other
        {
          var i :| 0 <= i < |before| && before[i].0 == other;
          assert rows[i] == before[i];
        }
        remaining := remaining - {id};
      }
    }

    /** `get_guilds(get_dms=True)`: the direct-message scope's row, if stored. */
    method GetDmGuild() returns (row: Option<GuildRow>)
      ensures row.Some? <==> DmGuildId in guilds
      ensures row.Some? ==> row.value == guilds[DmGuildId]
    {
      row := if DmGuildId in guilds then Some(guilds[DmGuildId]) else None;
    }
  }
}
