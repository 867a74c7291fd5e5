/** The exporter (`dump_to_cdl.py`): for every stored user, the media rows a
    filtered query selects, written as a block of one header line and one URL
    line per row. Expired CDN links can optionally be pointed at a mirror
    host. The query it builds reads the earlier variant's schema: media rows
    carrying `user_id`, `guild_id` and `channel_id`. */
module Export {
  import opened Common
  import opened Listing

  // ------------------------------------------------------------ the query

  /** A bound parameter: text, or the integer `int(flag)` makes of a bool. */
  datatype Param = Text(text: string) | Int(value: int)

  /** The optional filters, as `main` passes them on from the command line. */
  datatype Filters = Filters(
    guildId: Option<string>,
    channelId: Option<string>,
    contentType: Option<string>,
    isDm: Option<bool>,
    isNsfw: Option<bool>)

  /** The columns a condition can compare. */
  datatype Column = UserId | GuildId | ChannelId | ContentType | IsDm | IsNsfw

  function ColumnName(c: Column): string {
    match c
    case UserId => "media.user_id"
    case GuildId => "media.guild_id"
    case ChannelId => "media.channel_id"
    case ContentType => "media.content_type"
    case IsDm => "channels.is_dm"
    case IsNsfw => "channels.is_nsfw"
  }

  /** The position of a filter column in the order the source tests them. */
  function Rank(c: Column): nat {
    match c
    case UserId => 0
    case GuildId => 1
    case ChannelId => 2
    case ContentType => 3
    case IsDm => 4
    case IsNsfw => 5
  }

  /** The base query, character for character: a triple-quoted literal whose
      lines carry the source's indentation, with its one placeholder
      standing for the user id. */
  const Indent: string := "            "
  const QueryHead: string :=
    "\n" + Indent + "SELECT media.* FROM media"
    + "\n" + Indent + "JOIN channels ON " + "media.channel_id = channels.id"
    + "\n" + Indent + "WHERE " + "media.user_id = "
  const QueryTail: string := "\n        "
  const BaseQuery: string := QueryHead + "?" + QueryTail

  /** `" AND <column> = ?"`, the text every filter appends. */
  function AndClause(column: string): string {
    " AND " + column + " = ?"
  }

  /** `int(flag)`. */
  function FlagParam(b: bool): Param {
    Int(if b then 1 else 0)
  }

  /** One filter condition: the column it compares and the value it binds. */
  datatype Clause = Clause(column: Column, param: Param)

  /** The conditions a set of filters adds, in the order the source tests
      them: the three text filters when truthy, the two flags whenever given,
      `False` included. */
  function Clauses(f: Filters): seq<Clause> {
    (if Truthy(f.guildId) then [Clause(GuildId, Text(f.guildId.value))] else [])
    + (if Truthy(f.channelId) then [Clause(ChannelId, Text(f.channelId.value))] else [])
    + (if Truthy(f.contentType) then [Clause(ContentType, Text(f.contentType.value))] else [])
    + (if f.isDm.Some? then [Clause(IsDm, FlagParam(f.isDm.value))] else [])
    + (if f.isNsfw.Some? then [Clause(IsNsfw, FlagParam(f.isNsfw.value))] else [])
  }

  /** The text the clauses append to the base query. */
  function Conditions(cs: seq<Clause>): string
    decreases |cs|
  {
    if cs == [] then "" else Conditions(cs[..|cs| - 1]) + AndClause(ColumnName(cs[|cs| - 1].column))
  }

  /** The values the clauses bind, after the user id. */
  function ParamsOf(cs: seq<Clause>): (ps: seq<Param>)
    ensures |ps| == |cs|
    ensures forall i :: 0 <= i < |cs| ==> ps[i] == cs[i].param
    decreases |cs|
  {
    if cs == [] then [] else ParamsOf(cs[..|cs| - 1]) + [cs[|cs| - 1].param]
  }

  /** `generate_media_query`: the base query, then one `AND` condition and one
      parameter per filter in use. */
  method GenerateMediaQuery(userId: string, f: Filters) returns (query: string, params: seq<Param>)
    ensures query == BaseQuery + Conditions(Clauses(f))
    ensures params == [Text(userId)] + ParamsOf(Clauses(f))
  {
    query := BaseQuery;
    params := [Text(userId)];
    EmptyRight(BaseQuery);
    EmptyRight([Text(userId)]);
    ghost var cs: seq<Clause> := [];
    if Truthy(f.guildId) {
      Extend(BaseQuery, [Text(userId)], cs, Clause(GuildId, Text(f.guildId.value)), query, params);
      query := query + AndClause(ColumnName(GuildId));
      params := params + [Text(f.guildId.value)];
    }
    cs := if Truthy(f.guildId) then [Clause(GuildId, Text(f.guildId.value))] else [];
    if Truthy(f.channelId) {
      Extend(BaseQuery, [Text(userId)], cs, Clause(ChannelId, Text(f.channelId.value)), query, params);
      query := query + AndClause(ColumnName(ChannelId));
      params := params + [Text(f.channelId.value)];
    }
    EmptyRight(cs);
    cs := cs + if Truthy(f.channelId) then [Clause(ChannelId, Text(f.channelId.value))] else [];
    if Truthy(f.contentType) {
      Extend(BaseQuery, [Text(userId)], cs, Clause(ContentType, Text(f.contentType.value)), query, params);
      query := query + AndClause(ColumnName(ContentType));
      params := params + [Text(f.contentType.value)];
    }
    EmptyRight(cs);
    cs := cs + if Truthy(f.contentType) then [Clause(ContentType, Text(f.contentType.value))] else [];
    if f.isDm.Some? {
      Extend(BaseQuery, [Text(userId)], cs, Clause(IsDm, FlagParam(f.isDm.value)), query, params);
      query := query + AndClause(ColumnName(IsDm));
      params := params + [FlagParam(f.isDm.value)];
    }
    EmptyRight(cs);
    cs := cs + if f.isDm.Some? then [Clause(IsDm, FlagParam(f.isDm.value))] else [];
    if f.isNsfw.Some? {
      Extend(BaseQuery, [Text(userId)], cs, Clause(IsNsfw, FlagParam(f.isNsfw.value)), query, params);
      query := query + AndClause(ColumnName(IsNsfw));
      params := params + [FlagParam(f.isNsfw.value)];
    }
    EmptyRight(cs);
    cs := cs + if f.isNsfw.Some? then [Clause(IsNsfw, FlagParam(f.isNsfw.value))] else [];
  }

  /** Appending one clause's text and value to a query built from `cs` gives
      the query built from `cs` and that clause. */
  lemma Extend(base: string, first: seq<Param>, cs: seq<Clause>, c: Clause, query: string, params: seq<Param>)
    requires query == base + Conditions(cs) && params == first + ParamsOf(cs)
    ensures query + AndClause(ColumnName(c.column)) == base + Conditions(cs + [c])
    ensures params + [c.param] == first + ParamsOf(cs + [c])
  {
    AppendClause(cs, c);
    var text := AndClause(ColumnName(c.column));
    Associative(base, Conditions(cs), text);
    Associative(first, ParamsOf(cs), [c.param]);
  }

  /** Appending a clause appends its text and its value. */
  lemma AppendClause(cs: seq<Clause>, c: Clause)
    ensures Conditions(cs + [c]) == Conditions(cs) + AndClause(ColumnName(c.column))
    ensures ParamsOf(cs + [c]) == ParamsOf(cs) + [c.param]
  {
    assert (cs + [c])[..|cs|] == cs;
  }

  lemma EmptyRight<T>(a: seq<T>)
    ensures a + [] == a
  {
  }

  lemma Associative<T>(a: seq<T>, b: seq<T>, c: seq<T>)
    ensures (a + b) + c == a + (b + c)
  {
  }

  /** Text holding no placeholder. */
  predicate Plain(s: string) {
    '?' !in s
  }

  lemma ColumnNamePlain(c: Column)
    ensures Plain(ColumnName(c))
  {
  }

  /** The number of `?` placeholders in a text. */
  function Placeholders(s: string): nat
    decreases |s|
  {
    if s == [] then 0 else (if s[0] == '?' then 1 else 0) + Placeholders(s[1..])
  }

  lemma {:induction false} PlaceholdersConcat(a: string, b: string)
    ensures Placeholders(a + b) == Placeholders(a) + Placeholders(b)
    decreases |a|
  {
    if a != [] {
      assert (a + b)[1..] == a[1..] + b;
      PlaceholdersConcat(a[1..], b);
    } else {
      assert a + b == b;
    }
  }

  lemma {:induction false} PlainCount(s: string)
    requires Plain(s)
    ensures Placeholders(s) == 0
    decreases |s|
  {
    if s != [] {
      PlainCount(s[1..]);
    }
  }

  /** Text with one placeholder between two plain parts counts one. */
  lemma OnePlaceholder(head: string, tail: string)
    requires Plain(head) && Plain(tail)
    ensures Placeholders(head + "?" + tail) == 1
  {
    PlaceholdersConcat(head + "?", tail);
    PlaceholdersConcat(head, "?");
    PlainCount(head);
    PlainCount(tail);
  }

  lemma AndClauseCount(name: string)
    requires Plain(name)
    ensures Placeholders(AndClause(name)) == 1
  {
    assert Plain(" AND ") && Plain(" = ");
    assert AndClause(name) == (" AND " + name + " = ") + "?" + "";
    OnePlaceholder(" AND " + name + " = ", "");
  }

  lemma {:induction false} ConditionsCount(cs: seq<Clause>)
    ensures Placeholders(Conditions(cs)) == |cs|
    decreases |cs|
  {
    if cs != [] {
      var init := cs[..|cs| - 1];
      var name := ColumnName(cs[|cs| - 1].column);
      ConditionsCount(init);
      ColumnNamePlain(cs[|cs| - 1].column);
      AndClauseCount(name);
      assert Conditions(cs) == Conditions(init) + AndClause(name);
      PlaceholdersConcat(Conditions(init), AndClause(name));
    }
  }

  lemma QueryHeadPlain()
    ensures Plain(QueryHead)
  {
    assert Plain(Indent);
    assert Plain("SELECT media.* FROM media");
    assert Plain("JOIN channels ON ");
    assert Plain("media.channel_id = channels.id");
    assert Plain("WHERE ") && Plain("media.user_id = ") && Plain("\n");
  }

  lemma BaseQueryCount()
    ensures Placeholders(BaseQuery) == 1
  {
    QueryHeadPlain();
    assert Plain(QueryTail);
    OnePlaceholder(QueryHead, QueryTail);
  }

  /** The filters compare only the five filter columns, never the user
      column, each at most once and in the order guild, channel, content
      type, DM, NSFW. */
  lemma ClauseOrder(f: Filters)
    ensures var cs := Clauses(f);
      && (forall i :: 0 <= i < |cs| ==> cs[i].column != UserId)
      && (forall i, j :: 0 <= i < j < |cs| ==> Rank(cs[i].column) < Rank(cs[j].column))
  {
  }

  /** The query has exactly as many placeholders as there are parameters, and
      the first parameter is the user id. */
  lemma PlaceholdersMatchParams(userId: string, f: Filters)
    ensures var query := BaseQuery + Conditions(Clauses(f));
      var params := [Text(userId)] + ParamsOf(Clauses(f));
      Placeholders(query) == |params| && params[0] == Text(userId)
  {
    BaseQueryCount();
    ConditionsCount(Clauses(f));
    PlaceholdersConcat(BaseQuery, Conditions(Clauses(f)));
  }

  /** With no filter in use the query is the base query bound to the user id
      alone; empty text filters and absent flags count as unused. */
  lemma UnfilteredQuery(userId: string, f: Filters)
    requires !Truthy(f.guildId) && !Truthy(f.channelId) && !Truthy(f.contentType)
    requires f.isDm.None? && f.isNsfw.None?
    ensures BaseQuery + Conditions(Clauses(f)) == BaseQuery
    ensures [Text(userId)] + ParamsOf(Clauses(f)) == [Text(userId)]
  {
  }

  // --------------------------------------------------- what it selects

  /** A URL as the exporter needs it: the host `with_host` replaces, the text
      around it, and the value of the `ex` query parameter when present. */
  datatype Url = Url(scheme: string, host: string, rest: string, ex: Option<string>)

  /** `str(url)`. */
  function Show(u: Url): string {
    u.scheme + "://" + u.host + u.rest
  }

  /** The media columns the query reads: `url` is the second column of a row,
      the one the dump writes out. */
  datatype MediaRow = MediaRow(
    url: Url,
    userId: Option<string>,
    guildId: Option<string>,
    channelId: Option<string>,
    contentType: Option<string>)

  function TextValue(v: Option<string>): Option<Param> {
    if v.Some? then Some(Text(v.value)) else None
  }

  /** The value a named column holds for a media row joined with its channel;
      `None` is SQL NULL, which equals nothing. */
  function ColumnValue(column: Column, row: MediaRow, ch: ChannelRow): Option<Param> {
    match column
    case UserId => TextValue(row.userId)
    case GuildId => TextValue(row.guildId)
    case ChannelId => TextValue(row.channelId)
    case ContentType => TextValue(row.contentType)
    case IsDm => Some(FlagParam(ch.isDm))
    case IsNsfw => Some(FlagParam(ch.isNsfw))
  }

  predicate Satisfies(c: Clause, row: MediaRow, ch: ChannelRow) {
    ColumnValue(c.column, row, ch) == Some(c.param)
  }

  /** What the built query selects: rows whose channel joins, whose user is
      the bound user and which satisfy every condition. */
  predicate Selects(userId: string, f: Filters, row: MediaRow, channels: map<string, ChannelRow>) {
    && row.channelId.Some?
    && row.channelId.value in channels
    && Satisfies(Clause(UserId, Text(userId)), row, channels[row.channelId.value])
    && forall c :: c in Clauses(f) ==> Satisfies(c, row, channels[row.channelId.value])
  }

  /** The clauses present are exactly those of the filters in use. */
  lemma InClauses(f: Filters, c: Clause)
    ensures c in Clauses(f) <==>
      || (Truthy(f.guildId) && c == Clause(GuildId, Text(f.guildId.value)))
      || (Truthy(f.channelId) && c == Clause(ChannelId, Text(f.channelId.value)))
      || (Truthy(f.contentType) && c == Clause(ContentType, Text(f.contentType.value)))
      || (f.isDm.Some? && c == Clause(IsDm, FlagParam(f.isDm.value)))
      || (f.isNsfw.Some? && c == Clause(IsNsfw, FlagParam(f.isNsfw.value)))
  {
  }

  /** The query's meaning in plain terms: a row is selected exactly when its
      channel is known, it belongs to the user, and it matches each filter in
      use. */
  lemma SelectsMeaning(userId: string, f: Filters, row: MediaRow, channels: map<string, ChannelRow>)
    ensures Selects(userId, f, row, channels) <==>
      && row.channelId.Some? && row.channelId.value in channels
      && row.userId == Some(userId)
      && (Truthy(f.guildId) ==> row.guildId == f.guildId)
      && (Truthy(f.channelId) ==> row.channelId == f.channelId)
      && (Truthy(f.contentType) ==> row.contentType == f.contentType)
      && (f.isDm.Some? ==> channels[row.channelId.value].isDm == f.isDm.value)
      && (f.isNsfw.Some? ==> channels[row.channelId.value].isNsfw == f.isNsfw.value)
  {
    if row.channelId.Some? && row.channelId.value in channels {
      var ch := channels[row.channelId.value];
      forall c | c in Clauses(f) && !Satisfies(c, row, ch)
        ensures !(&& (Truthy(f.guildId) ==> row.guildId == f.guildId)
                  && (Truthy(f.channelId) ==> row.channelId == f.channelId)
                  && (Truthy(f.contentType) ==> row.contentType == f.contentType)
                  && (f.isDm.Some? ==> ch.isDm == f.isDm.value)
                  && (f.isNsfw.Some? ==> ch.isNsfw == f.isNsfw.value))
      {
        InClauses(f, c);
      }
      if Truthy(f.guildId) { InClauses(f, Clause(GuildId, Text(f.guildId.value))); }
      if Truthy(f.channelId) { InClauses(f, Clause(ChannelId, Text(f.channelId.value))); }
      if Truthy(f.contentType) { InClauses(f, Clause(ContentType, Text(f.contentType.value))); }
      if f.isDm.Some? { InClauses(f, Clause(IsDm, FlagParam(f.isDm.value))); }
      if f.isNsfw.Some? { InClauses(f, Clause(IsNsfw, FlagParam(f.isNsfw.value))); }
    }
  }

  /** The rows the query returns, in table order. */
  function Selected(userId: string, f: Filters, rows: seq<MediaRow>, channels: map<string, ChannelRow>): (r: seq<MediaRow>)
    ensures |r| <= |rows|
    decreases |rows|
  {
    if rows == [] then []
    else (if Selects(userId, f, rows[0], channels) then [rows[0]] else []) + Selected(userId, f, rows[1..], channels)
  }

  lemma {:induction false} SelectedExactly(userId: string, f: Filters, rows: seq<MediaRow>, channels: map<string, ChannelRow>)
    ensures forall x :: x in Selected(userId, f, rows, channels) <==> x in rows && Selects(userId, f, x, channels)
    decreases |rows|
  {
    if rows != [] {
      SelectedExactly(userId, f, rows[1..], channels);
      assert forall x :: x in rows <==> x == rows[0] || x in rows[1..];
    }
  }

  // ------------------------------------------------------ CDN expiry

  const FixCdnHost: string := "fixcdn.hyonsu.com"

  function HexDigit(c: char): Option<nat> {
    if '0' <= c <= '9' then Some(c as nat - '0' as nat)
    else if 'a' <= c <= 'f' then Some(c as nat - 'a' as nat + 10)
    else if 'A' <= c <= 'F' then Some(c as nat - 'A' as nat + 10)
    else None
  }

  predicate IsHex(s: string) {
    |s| > 0 && forall i :: 0 <= i < |s| ==> HexDigit(s[i]).Some?
  }

  /** `int(s, 16)` on plain hexadecimal digits. */
  function HexValue(s: string): nat
    requires IsHex(s)
    decreases |s|
  {
    if |s| == 1 then HexDigit(s[0]).value
    else HexValue(s[..|s| - 1]) * 16 + HexDigit(s[|s| - 1]).value
  }

  function LowerHexChar(d: nat): char
    requires d < 16
  {
    if d < 10 then ('0' as nat + d) as char else ('a' as nat + d - 10) as char
  }

  /** The lower-case hexadecimal text of a number, as the CDN writes `ex`. */
  function ToHex(n: nat): string
    decreases n
  {
    if n < 16 then [LowerHexChar(n)] else ToHex(n / 16) + [LowerHexChar(n % 16)]
  }

  /** Parsing the hexadecimal text of a number gives that number back. */
  lemma {:induction false} HexRoundTrip(n: nat)
    ensures IsHex(ToHex(n)) && HexValue(ToHex(n)) == n
    decreases n
  {
    if n >= 16 {
      HexRoundTrip(n / 16);
      var s := ToHex(n);
      assert s[..|s| - 1] == ToHex(n / 16);
    }
  }

  /** The URL line for a row, or why it cannot be written. */
  datatype UrlOutcome = UrlOk(text: string) | NoExpiry | BadExpiry(ex: string)

  /** `check_cdn_expired`: with `fix_cdn` off the URL is written as stored.
      With it on, `int(ex, 16) * 1000` is compared with the current time in
      milliseconds, and an expired link (the boundary included) gets the
      mirror host. A missing `ex` makes `int(0, 16)` raise and a malformed one
      makes the parse raise. */
  function CheckCdnExpired(fixCdn: bool, u: Url, nowMs: int): (r: UrlOutcome)
    ensures !fixCdn ==> r == UrlOk(Show(u))
    ensures r.NoExpiry? <==> fixCdn && u.ex.None?
    ensures r.BadExpiry? <==> fixCdn && u.ex.Some? && !IsHex(u.ex.value)
    ensures r.UrlOk? ==> r.text == Show(u) || r.text == Show(u.(host := FixCdnHost))
  {
    if !fixCdn then UrlOk(Show(u))
    else if u.ex.None? then NoExpiry
    else if !IsHex(u.ex.value) then BadExpiry(u.ex.value)
    else if HexValue(u.ex.value) * 1000 <= nowMs then UrlOk(Show(u.(host := FixCdnHost)))
    else UrlOk(Show(u))
  }

  /** A link whose `ex` encodes second `n` is redirected exactly from
      millisecond `n * 1000` on. */
  lemma CdnExpiryBoundary(u: Url, n: nat, nowMs: int)
    requires u.ex == Some(ToHex(n))
    ensures CheckCdnExpired(true, u, nowMs) == UrlOk(Show(if n * 1000 <= nowMs then u.(host := FixCdnHost) else u))
  {
    HexRoundTrip(n);
  }

  /** A link redirected now is redirected at every later time. */
  lemma CdnExpiryPersists(u: Url, nowMs: int, later: int)
    requires nowMs <= later
    requires u.ex.Some? && IsHex(u.ex.value) && HexValue(u.ex.value) * 1000 <= nowMs
    ensures CheckCdnExpired(true, u, later) == CheckCdnExpired(true, u, nowMs) == UrlOk(Show(u.(host := FixCdnHost)))
  {
  }

  // ------------------------------------------------------------ the dump

  /** A `users` row. */
  datatype UserRow = UserRow(id: string, name: Option<string>)

  /** An f-string renders a NULL name as `None`. */
  function NameText(name: Option<string>): string {
    if name.Some? then name.value else "None"
  }

  /** `=== {username} ({user_id})`. */
  function Header(u: UserRow): string {
    "=== " + NameText(u.name) + " (" + u.id + ")"
  }

  /** The lines written, without their newlines, and whether a raise cut the
      dump short. */
  datatype Output = Output(lines: seq<string>, failed: bool)

  /** The URL lines for the selected rows, up to the first that raises. */
  function UrlLines(rows: seq<MediaRow>, fixCdn: bool, nowMs: int): Output
    decreases |rows|
  {
    if rows == [] then Output([], false)
    else
      match CheckCdnExpired(fixCdn, rows[0].url, nowMs)
      case UrlOk(text) =>
        var o := UrlLines(rows[1..], fixCdn, nowMs);
        Output([text] + o.lines, o.failed)
      case _ => Output([], true)
  }

  /** One user's block: nothing when the query finds no row, else the header
      and the URL lines. */
  function UserOutput(u: UserRow, rows: seq<MediaRow>, channels: map<string, ChannelRow>, f: Filters, fixCdn: bool, nowMs: int): Output {
    var sel := Selected(u.id, f, rows, channels);
    if sel == [] then Output([], false)
    else
      var o := UrlLines(sel, fixCdn, nowMs);
      Output([Header(u)] + o.lines, o.failed)
  }

  /** `dump` over the users in table order, stopped by the first raise. */
  function DumpOf(users: seq<UserRow>, rows: seq<MediaRow>, channels: map<string, ChannelRow>, f: Filters, fixCdn: bool, nowMs: int): Output
    decreases |users|
  {
    if users == [] then Output([], false)
    else
      var o := UserOutput(users[0], rows, channels, f, fixCdn, nowMs);
      if o.failed then o
      else
        var rest := DumpOf(users[1..], rows, channels, f, fixCdn, nowMs);
        Output(o.lines + rest.lines, rest.failed)
  }

  /** The URL lines are the checked URLs of the rows, one per row in order;
      they stop short exactly when a row's check raises, at that row. */
  lemma {:induction false} UrlLinesShape(rows: seq<MediaRow>, fixCdn: bool, nowMs: int)
    ensures var o := UrlLines(rows, fixCdn, nowMs);
      && |o.lines| <= |rows|
      && (forall i :: 0 <= i < |o.lines| ==> CheckCdnExpired(fixCdn, rows[i].url, nowMs) == UrlOk(o.lines[i]))
      && (o.failed <==> |o.lines| < |rows|)
      && (o.failed ==> !CheckCdnExpired(fixCdn, rows[|o.lines|].url, nowMs).UrlOk?)
    decreases |rows|
  {
    if rows != [] {
      UrlLinesShape(rows[1..], fixCdn, nowMs);
    }
  }

  /** A user block is empty exactly when the query selects nothing for that
      user; otherwise it is one header followed by one line per selected row,
      cut short only by a raise. */
  lemma UserOutputShape(u: UserRow, rows: seq<MediaRow>, channels: map<string, ChannelRow>, f: Filters, fixCdn: bool, nowMs: int)
    ensures var o := UserOutput(u, rows, channels, f, fixCdn, nowMs);
      var sel := Selected(u.id, f, rows, channels);
      && (o.lines == [] <==> forall x :: x in rows ==> !Selects(u.id, f, x, channels))
      && (o.lines == [] ==> !o.failed)
      && (o.lines != [] ==> o.lines[0] == Header(u) && |o.lines| <= 1 + |sel|
                            && (forall i :: 1 <= i < |o.lines| ==> CheckCdnExpired(fixCdn, sel[i - 1].url, nowMs) == UrlOk(o.lines[i]))
                            && (o.failed <==> |o.lines| < 1 + |sel|))
  {
    var sel := Selected(u.id, f, rows, channels);
    SelectedExactly(u.id, f, rows, channels);
    if sel != [] {
      assert sel[0] in sel;
      UrlLinesShape(sel, fixCdn, nowMs);
    }
  }

  /** The reference output with `fix_cdn` off: per user with selected rows,
      the header and each selected row's stored URL. */
  function Urls(rows: seq<MediaRow>): seq<string>
    decreases |rows|
  {
    if rows == [] then [] else [Show(rows[0].url)] + Urls(rows[1..])
  }

  function Blocks(users: seq<UserRow>, rows: seq<MediaRow>, channels: map<string, ChannelRow>, f: Filters): seq<string>
    decreases |users|
  {
    if users == [] then []
    else
      var sel := Selected(users[0].id, f, rows, channels);
      (if sel == [] then [] else [Header(users[0])] + Urls(sel)) + Blocks(users[1..], rows, channels, f)
  }

  lemma {:induction false} UrlLinesWithoutFix(rows: seq<MediaRow>, nowMs: int)
    ensures UrlLines(rows, false, nowMs) == Output(Urls(rows), false)
    decreases |rows|
  {
    if rows != [] {
      UrlLinesWithoutFix(rows[1..], nowMs);
    }
  }

  /** With `fix_cdn` off the dump cannot fail and writes exactly the blocks. */
  lemma {:induction false} DumpWithoutFix(users: seq<UserRow>, rows: seq<MediaRow>, channels: map<string, ChannelRow>, f: Filters, nowMs: int)
    ensures DumpOf(users, rows, channels, f, false, nowMs) == Output(Blocks(users, rows, channels, f), false)
    decreases |users|
  {
    if users != [] {
      UrlLinesWithoutFix(Selected(users[0].id, f, rows, channels), nowMs);
      DumpWithoutFix(users[1..], rows, channels, f, nowMs);
    }
  }

  /** The inner loop of `dump`: one line per selected row, stopping at the
      first row whose check raises. */
  method WriteUrls(selected: seq<MediaRow>, fixCdn: bool, nowMs: int) returns (written: seq<string>, failed: bool)
    ensures Output(written, failed) == UrlLines(selected, fixCdn, nowMs)
  {
    written := [];
    var k := 0;
    while k < |selected|
      invariant 0 <= k <= |selected|
      invariant UrlLines(selected, fixCdn, nowMs)
        == var o := UrlLines(selected[k..], fixCdn, nowMs); Output(written + o.lines, o.failed)
    {
      var checked := CheckCdnExpired(fixCdn, selected[k].url, nowMs);
      assert selected[k..][1..] == selected[k + 1..];
      if !checked.UrlOk? {
        EmptyRight(written);
        return written, true;
      }
      Associative(written, [checked.text], UrlLines(selected[k + 1..], fixCdn, nowMs).lines);
      written := written + [checked.text];
      k := k + 1;
    }
    EmptyRight(written);
    failed := false;
  }

  /** One turn of the user loop: the output so far, then the user's block,
      then, unless the block raised, the rest of the dump. */
  lemma DumpStep(users: seq<UserRow>, i: nat, rows: seq<MediaRow>, channels: map<string, ChannelRow>, f: Filters, fixCdn: bool, nowMs: int, lines: seq<string>)
    requires i < |users|
    ensures var o := UserOutput(users[i], rows, channels, f, fixCdn, nowMs);
      var all := DumpOf(users[i..], rows, channels, f, fixCdn, nowMs);
      var rest := DumpOf(users[i + 1..], rows, channels, f, fixCdn, nowMs);
      Output(lines + all.lines, all.failed)
        == if o.failed then Output(lines + o.lines, true) else Output((lines + o.lines) + rest.lines, rest.failed)
  {
    assert users[i..][1..] == users[i + 1..];
    var o := UserOutput(users[i], rows, channels, f, fixCdn, nowMs);
    Associative(lines, o.lines, DumpOf(users[i + 1..], rows, channels, f, fixCdn, nowMs).lines);
  }

  /** `dump`: the loop over users and, for each user with media, over the
      selected rows, writing one line at a time. */
  method Dump(users: seq<UserRow>, rows: seq<MediaRow>, channels: map<string, ChannelRow>, f: Filters, fixCdn: bool, nowMs: int)
    returns (lines: seq<string>, failed: bool)
    ensures Output(lines, failed) == DumpOf(users, rows, channels, f, fixCdn, nowMs)
  {
    lines, failed := [], false;
    var i := 0;
    while i < |users|
      invariant 0 <= i <= |users|
      invariant DumpOf(users, rows, channels, f, fixCdn, nowMs)
        == var rest := DumpOf(users[i..], rows, channels, f, fixCdn, nowMs); Output(lines + rest.lines, rest.failed)
    {
      var user := users[i];
      DumpStep(users, i, rows, channels, f, fixCdn, nowMs, lines);
      var selected := Selected(user.id, f, rows, channels);
      if selected != [] {
        var written, stopped := WriteUrls(selected, fixCdn, nowMs);
        Associative(lines, [Header(user)], written);
        lines := lines + [Header(user)] + written;
        if stopped {
          return lines, true;
        }
      } else {
        EmptyRight(lines);
      }
      i := i + 1;
    }
    EmptyRight(lines);
  }

  // ---------------------------------------------------- command line

  /** The options `main` reads. */
  datatype Args = Args(
    guildId: Option<string>,
    channelId: Option<string>,
    contentType: Option<string>,
    dm: Option<bool>,
    nsfw: Option<bool>,
    fixCdn: bool)

  /** `args.dm and args.nsfw`: both flags given as true. */
  predicate DmAndNsfw(args: Args) {
    args.dm == Some(true) && args.nsfw == Some(true)
  }

  function FiltersOf(args: Args): Filters {
    Filters(args.guildId, args.channelId, args.contentType, args.dm, args.nsfw)
  }

  /** `main` without a `--user-id`: asking for DMs and NSFW together aborts
      before anything is written; otherwise the dump runs with the filters. */
  method Export(args: Args, users: seq<UserRow>, rows: seq<MediaRow>, channels: map<string, ChannelRow>, nowMs: int)
    returns (out: Option<Output>)
    ensures out.None? <==> args.dm == Some(true) && args.nsfw == Some(true)
    ensures out.Some? ==> out.value == DumpOf(users, rows, channels, FiltersOf(args), args.fixCdn, nowMs)
    ensures out.Some? ==> !(FiltersOf(args).isDm == Some(true) && FiltersOf(args).isNsfw == Some(true))
  {
    if DmAndNsfw(args) {
      return None;
    }
    var lines, failed := Dump(users, rows, channels, FiltersOf(args), args.fixCdn, nowMs);
    out := Some(Output(lines, failed));
  }
}
