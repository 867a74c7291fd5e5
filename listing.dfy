/** The channel table both scrapers share, and `get_guild_channels`: for each
    guild to visit, one `GET /guilds/{id}/channels`, whose status decides what
    happens. 200 stores the text channels. 429 retries the same guild, which the
    source does by calling itself on that one guild. 403 and 404 delete the
    guild row. Any other status raises. Both variants have the same text for
    this, so the specification lives here and each variant's scraper drives
    its own store through it. */
module Listing {
  import opened Common
  import opened Api

  /** A `channels` row. `guild_id` is written on insert only. */
  datatype ChannelRow = ChannelRow(name: string, isDm: bool, isNsfw: bool, guildId: string)

  /** `insert_channel`: insert, or on an id clash update `name`, `is_dm` and
      `is_nsfw`, never `guild_id`. */
  function UpsertChannel(cs: map<string, ChannelRow>, id: string, row: ChannelRow): (r: map<string, ChannelRow>)
    ensures r.Keys == cs.Keys + {id}
    ensures r[id].name == row.name && r[id].isDm == row.isDm && r[id].isNsfw == row.isNsfw
    ensures r[id].guildId == if id in cs then cs[id].guildId else row.guildId
    ensures forall k :: k in cs && k != id ==> r[k] == cs[k]
  {
    if id in cs then cs[id := cs[id].(name := row.name, isDm := row.isDm, isNsfw := row.isNsfw)]
    else cs[id := row]
  }

  /** Upserting the same channel twice leaves what upserting it once left. */
  lemma UpsertChannelIdempotent(cs: map<string, ChannelRow>, id: string, row: ChannelRow)
    ensures UpsertChannel(UpsertChannel(cs, id, row), id, row) == UpsertChannel(cs, id, row)
  {
  }

  /** The row a listed text channel becomes: missing id and name read as "0"
      and "", a missing `nsfw` as false; never a DM channel. */
  function ListedChannelRow(c: ApiChannel, guildId: string): ChannelRow {
    ChannelRow(GetOr(c.name, ""), false, GetOr(c.nsfw, false), guildId)
  }

  /** The ids of the text channels in a listing. */
  function TextChannelIds(chans: seq<ApiChannel>): set<string>
    decreases |chans|
  {
    if chans == [] then {}
    else (if IsTextChannel(chans[0]) then {GetOr(chans[0].id, MissingId)} else {}) + TextChannelIds(chans[1..])
  }

  /** The body of a 200 answer: each text channel upserted in listing order. */
  function StoreTextChannels(cs: map<string, ChannelRow>, chans: seq<ApiChannel>, guildId: string): map<string, ChannelRow>
    decreases |chans|
  {
    if chans == [] then cs
    else
      var c := chans[0];
      var next := if IsTextChannel(c) then UpsertChannel(cs, GetOr(c.id, MissingId), ListedChannelRow(c, guildId)) else cs;
      StoreTextChannels(next, chans[1..], guildId)
  }

  /** A 200 answer adds exactly the text channels, files the new ones under the
      listed guild, marks every stored text channel as not a DM, keeps the guild
      of channels already known and leaves all other channels alone. */
  lemma {:induction false} StoreTextChannelsEffect(cs: map<string, ChannelRow>, chans: seq<ApiChannel>, guildId: string)
    ensures var r := StoreTextChannels(cs, chans, guildId);
      && r.Keys == cs.Keys + TextChannelIds(chans)
      && (forall k :: k in r && k !in cs ==> r[k].guildId == guildId)
      && (forall k :: k in cs ==> r[k].guildId == cs[k].guildId)
      && (forall k :: k in TextChannelIds(chans) ==> !r[k].isDm)
      && (forall k :: k in cs && k !in TextChannelIds(chans) ==> r[k] == cs[k])
    decreases |chans|
  {
    if chans != [] {
      var c := chans[0];
      var next := if IsTextChannel(c) then UpsertChannel(cs, GetOr(c.id, MissingId), ListedChannelRow(c, guildId)) else cs;
      StoreTextChannelsEffect(next, chans[1..], guildId);
    }
  }

  /** What the listing does with one response status. */
  datatype Action = StoreChannels | RetryGuild | DropGuild | Fail

  function Dispatch(status: int): (a: Action)
    ensures a == StoreChannels <==> status == 200
    ensures a == RetryGuild <==> status == 429
    ensures a == DropGuild <==> status == 403 || status == 404
    ensures a == Fail <==> status != 200 && status != 429 && status != 403 && status != 404
  {
    if status == 200 then StoreChannels
    else if status == 429 then RetryGuild
    else if status == 403 then DropGuild
    else if status == 404 then DropGuild
    else Fail
  }

  /** One channel-listing response. */
  datatype ChannelReply = ChannelReply(status: int, channels: seq<ApiChannel>)

  /** `ListedAll`: every guild was visited. `Raised`: an unexpected status
      raised an exception. `NoMoreResponses`: the modelled server stopped
      answering. */
  datatype ListingEnd = ListedAll | Raised(status: int) | NoMoreResponses

  datatype Listing<G> = Listing(guilds: map<string, G>, channels: map<string, ChannelRow>, end: ListingEnd)

  /** The loop of `get_guild_channels` over the guilds in `order`, each
      response taken from `replies` in turn. */
  function ListChannels<G>(gs: map<string, G>, cs: map<string, ChannelRow>, order: seq<string>, replies: seq<ChannelReply>): Listing<G>
    decreases |replies|
  {
    if order == [] then Listing(gs, cs, ListedAll)
    else if replies == [] then Listing(gs, cs, NoMoreResponses)
    else
      var g := order[0];
      var r := replies[0];
      match Dispatch(r.status)
      case StoreChannels => ListChannels(gs, StoreTextChannels(cs, r.channels, g), order[1..], replies[1..])
      case RetryGuild => ListChannels(gs, cs, order, replies[1..])
      case DropGuild => ListChannels(gs - {g}, cs, order[1..], replies[1..])
      case Fail => Listing(gs, cs, Raised(r.status))
  }

  /** The listing only ever deletes guild rows and never edits one; guilds
      outside the visiting order are kept; channels are never deleted. */
  lemma {:induction false} ListChannelsKeeps<G>(gs: map<string, G>, cs: map<string, ChannelRow>, order: seq<string>, replies: seq<ChannelReply>)
    ensures var l := ListChannels(gs, cs, order, replies);
      && l.guilds.Keys <= gs.Keys
      && (forall k :: k in l.guilds ==> l.guilds[k] == gs[k])
      && (forall k :: k in gs && k !in order ==> k in l.guilds)
      && cs.Keys <= l.channels.Keys
    decreases |replies|
  {
    if order != [] && replies != [] {
      var g := order[0];
      var r := replies[0];
      match Dispatch(r.status)
      case StoreChannels =>
        StoreTextChannelsEffect(cs, r.channels, g);
        ListChannelsKeeps(gs, StoreTextChannels(cs, r.channels, g), order[1..], replies[1..]);
      case RetryGuild =>
        ListChannelsKeeps(gs, cs, order, replies[1..]);
      case DropGuild =>
        ListChannelsKeeps(gs - {g}, cs, order[1..], replies[1..]);
      case Fail =>
    }
  }

  /** A 403 or 404 for a guild removes it: the guild is absent once the
      listing is over, whatever happens to the guilds after it. */
  lemma ForbiddenGuildIsRemoved<G>(gs: map<string, G>, cs: map<string, ChannelRow>, order: seq<string>, replies: seq<ChannelReply>)
    requires order != [] && replies != []
    requires Dispatch(replies[0].status) == DropGuild
    ensures order[0] !in ListChannels(gs, cs, order, replies).guilds
  {
    ListChannelsKeeps(gs - {order[0]}, cs, order[1..], replies[1..]);
  }

  /** A 429 consumes a response and visits the same guild again: after any
      run of `n` rate-limited responses the listing goes on as the listing of
      the same order with the responses that follow them. */
  lemma {:induction false} RateLimitedGuildIsRetried<G>(gs: map<string, G>, cs: map<string, ChannelRow>, order: seq<string>, replies: seq<ChannelReply>, n: nat)
    requires order != [] && n <= |replies|
    requires forall k :: 0 <= k < n ==> replies[k].status == 429
    ensures ListChannels(gs, cs, order, replies) == ListChannels(gs, cs, order, replies[n..])
    decreases n
  {
    if n > 0 {
      RateLimitedGuildIsRetried(gs, cs, order, replies[1..], n - 1);
      assert replies[1..][n - 1..] == replies[n..];
    }
  }

  /** Any status other than 200, 429, 403 and 404, even after a run of 429s
      for the same guild, stops the listing on the spot with nothing changed
      since that guild's turn began. */
  lemma {:induction false} UnexpectedStatusRaises<G>(gs: map<string, G>, cs: map<string, ChannelRow>, order: seq<string>, replies: seq<ChannelReply>, n: nat)
    requires order != [] && n < |replies|
    requires forall k :: 0 <= k < n ==> replies[k].status == 429
    requires replies[n].status !in {200, 429, 403, 404}
    ensures ListChannels(gs, cs, order, replies) == Listing(gs, cs, Raised(replies[n].status))
  {
    RateLimitedGuildIsRetried(gs, cs, order, replies, n);
    assert replies[n..][0] == replies[n];
  }
}
