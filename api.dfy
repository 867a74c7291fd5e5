/** The JSON shapes both scrapers read from the platform's API, with the
    defaults the source supplies through `.get(key, default)`. A missing key is
    `None`; a key present with JSON null is not distinguished from it. */
module Api {
  import opened Common

  /** `.get("id", 0)` yields the integer 0 when the key is missing; stored in a
      TEXT column it reads back as the text "0". */
  const MissingId: string := "0"

  /** The synthetic guild id of the direct-message scope. */
  const DmGuildId: string := "@me"

  datatype Author = Author(id: Option<string>, username: Option<string>)

  datatype Attachment = Attachment(
    id: Option<string>,
    url: Option<string>,
    filename: Option<string>,
    size: Option<int>,
    contentType: Option<string>,
    width: Option<int>,
    height: Option<int>)

  /** One search hit: the first element of each entry of `messages`. A missing
      `attachments` key reads as the empty list. */
  datatype ApiMessage = ApiMessage(
    id: Option<string>,
    content: Option<string>,
    channelId: Option<string>,
    author: Option<Author>,
    timestamp: Option<string>,
    editedTimestamp: Option<string>,
    attachments: seq<Attachment>)

  /** `message.get("author", {}).get("id")`. */
  function AuthorId(m: ApiMessage): Option<string> {
    if m.author.Some? then m.author.value.id else None
  }

  /** `message.get("author", {}).get("username")`. */
  function AuthorName(m: ApiMessage): Option<string> {
    if m.author.Some? then m.author.value.username else None
  }

  /** `attachment.get("id", 0)`. */
  function FileId(a: Attachment): string {
    GetOr(a.id, MissingId)
  }

  /** The `if url:` test guarding every media insert. */
  predicate HasUrl(a: Attachment) {
    Truthy(a.url)
  }

  /** The file ids of the attachments that carry a truthy URL. */
  function UrlFileIds(atts: seq<Attachment>): set<string>
    decreases |atts|
  {
    if atts == [] then {}
    else (if HasUrl(atts[0]) then {FileId(atts[0])} else {}) + UrlFileIds(atts[1..])
  }

  /** A guild entry of `GET /users/@me/guilds`. */
  datatype ApiGuild = ApiGuild(id: string, name: string)

  /** A whole `GET /users/@me/guilds` response. */
  datatype GuildsReply = GuildsReply(status: int, guilds: seq<ApiGuild>)

  function GuildIds(list: seq<ApiGuild>): set<string>
    decreases |list|
  {
    if list == [] then {} else {list[0].id} + GuildIds(list[1..])
  }

  /** A channel entry of `GET /guilds/{id}/channels`. */
  datatype ApiChannel = ApiChannel(id: Option<string>, name: Option<string>, kind: Option<int>, nsfw: Option<bool>)

  /** `channel.get("type", -1) == 0`: only text channels, a missing type excluded. */
  predicate IsTextChannel(c: ApiChannel) {
    GetOr(c.kind, -1) == 0
  }
}
