# Discord File Dumper — a Dafny model

Discord File Dumper logs in to Discord with a user token. It lists the
account's guilds and their text channels, then walks Discord's media search
tabs for every guild and for the direct messages. Every message and
attachment it finds goes into a local SQLite database, together with a
per-guild timestamp cursor so that the next run resumes where this one
stopped. A separate exporter reads that database back and writes the
attachment URLs grouped by author. It can filter the rows by guild, channel,
content type, DM and NSFW flags, and it can point expired CDN links at a
mirror host.

The repository contains two scrapers and the exporter. This project models
all three:

- `dump_messages.py`, the current scraper, in modules `Store` and `Scraper`.
  `Store.Database` holds the six tables as maps keyed by primary key, and
  each `INSERT ... ON CONFLICT` statement is a pure upsert function. Beside
  them sit `Search` (the paginated search loop) and `Listing` (the channel
  listing and its status dispatch); `Scraper.DiscordScraper` uses both.
- `main.py`, the earlier scraper, in modules `LegacyStore` and
  `LegacyScraper`. It shares `Search` and `Listing` with the current one.
  Its `insert_user` names two columns, gives three placeholders and binds
  two values, so SQLite rejects the statement every time. The model keeps
  that: a `process_message` that meets an attachment with a URL stores that
  one media row and then raises. The raise ends the run before any guild
  cursor, user or DM channel is written. The lemmas prove that the guild
  walks and the DM walk of one `main.py` run together add at most one media
  row.
- `dump_to_cdl.py`, the exporter, in module `Export`. It covers the
  query-string builder and its parameter list, the rows the query selects,
  the CDN expiry check and the dump loops.

`Common` holds `Option`, Python truthiness on optional strings and the
substring test. `Api` holds the JSON shapes the scrapers read and the
defaults of their `.get(..., default)` calls.

Where a scraper loops, the model loops too, and each method is proved
against a function of the old state. For example,
`Scraper.DiscordScraper.ProcessGuildMessages` is proved against
`Scraper.GuildsRun`. The properties that matter are then proved about
those functions. Two of them record how the two programs disagree about
their schema:

- `dump_messages.py` resumes each guild walk from `last_media_timestamp`
  (row index 2), but with `store_messages` forced on it only ever writes
  `last_message_timestamp`. Guild walks therefore restart from the stored
  media cursor, which the scraper never moves
  (`Scraper.GuildsRunKeepsMediaCursors`).
- The exporter filters on the `media.user_id`, `media.guild_id` and
  `media.channel_id` columns of the `main.py` schema.

## Model

| member | source | states |
|---|---|---|
| Common.ContainsMeaning | dump_messages.py:122 | the substring test holds exactly when the needle occurs at some offset of the haystack, as Python's `in` on strings |
| Search.RateLimitedMeaning | dump_messages.py:122 | a search body counts as rate limited exactly when "rate limited" occurs somewhere in its `message` |
| Search.FirstRequest | dump_messages.py:103-114 | the first search request asks for the given scope, media kinds and a page of 25; it carries a cursor exactly when the resume timestamp is truthy, and then that timestamp |
| Search.SearchMedia | dump_messages.py:118-136 | the search loop, one reply at a time, produces exactly the trace of `Walk`: the requests sent, the pages yielded and why the walk ended |
| Search.WalkRequests | dump_messages.py:118-136 | every request after the first is the previous one advanced by a reply that did not end the walk; the walk ends by exhaustion exactly when the last reply answered held no messages |
| Search.WalkKeepsRequestShape | dump_messages.py:118-136 | every request of a walk keeps the scope, media kinds and page size of the first; its cursor is the first cursor or a truthy timestamp |
| Search.WalkPages | dump_messages.py:127-133 | the pages yielded are the non-empty, non-rate-limited replies in the order received, and no yielded page is empty |
| Listing.UpsertChannel | dump_messages.py:355-365 | `insert_channel` adds or updates exactly that channel; name, DM and NSFW flags are replaced, a known channel keeps its guild, and other channels are unchanged |
| Listing.UpsertChannelIdempotent | dump_messages.py:355-365 | inserting the same channel twice leaves what inserting it once leaves |
| Listing.StoreTextChannelsEffect | dump_messages.py:79-86 | the 200 branch adds exactly the listed text channels (type 0), marks them not DM, keeps a known channel's guild and leaves other channels alone |
| Listing.Dispatch | dump_messages.py:79-99 | status 200 stores channels, 429 retries the same guild, 403 and 404 drop the guild, and every other status raises, each if and only if |
| Listing.ListChannelsKeeps | dump_messages.py:65-99 | the channel listing only deletes guild rows and never edits them; guilds outside the visiting order stay; no channel is deleted |
| Listing.ForbiddenGuildIsRemoved | dump_messages.py:92-97 | a 403 or 404 for a guild removes that guild's row |
| Listing.RateLimitedGuildIsRetried | dump_messages.py:88-91 | each 429 reply is consumed and the same guild is listed again, so any run of 429s leaves the listing where it was |
| Listing.UnexpectedStatusRaises | dump_messages.py:88-99 | any other status, after any number of 429s for that guild, stops the listing with an error and leaves the tables as they were when the guild's turn began |
| Store.UpsertGuild | dump_messages.py:335-343 | `insert_guild` sets the name; a known guild keeps both cursors; a new guild starts with neither; other guilds are unchanged |
| Store.UpsertUser | dump_messages.py:345-353 | `insert_user` inserts or renames exactly that user |
| Store.UpsertAccount | dump_messages.py:367-375 | `insert_scraping_account` stores that account's name and token and touches no other account |
| Store.UpsertMessage | dump_messages.py:377-398 | `insert_message` replaces content and the media flag; a known message keeps its other columns; a new one gets the whole row |
| Store.UpsertMedia | dump_messages.py:400-420 | `insert_media` on a known file id replaces only the URL and keeps the row count; a new file id adds the whole row and one to the count |
| Store.UpsertMediaIdempotent | dump_messages.py:400-420 | inserting the same attachment twice leaves what inserting it once leaves |
| Store.StampGuild | dump_messages.py:422-427 | type 0 sets the media cursor and any other type the message cursor, of that guild only; an unknown guild is not created |
| Store.Database.constructor | dump_messages.py:252-262 | opening the database file keeps every row a previous run stored |
| Store.Database.InsertGuild | dump_messages.py:335-343 | the guilds table becomes `UpsertGuild` of the old one |
| Store.Database.InsertUser | dump_messages.py:345-353 | the users table becomes `UpsertUser` of the old one |
| Store.Database.InsertChannel | dump_messages.py:355-365 | the channels table becomes `UpsertChannel` of the old one |
| Store.Database.InsertScrapingAccount | dump_messages.py:367-375 | the accounts table becomes `UpsertAccount` of the old one |
| Store.Database.InsertMessage | dump_messages.py:377-398 | the messages table becomes `UpsertMessage` of the old one |
| Store.Database.InsertMedia | dump_messages.py:400-420 | the media table becomes `UpsertMedia` of the old one |
| Store.Database.UpdateGuildTimestamp | dump_messages.py:422-427 | the guilds table becomes `StampGuild` of the old one |
| Store.Database.RemoveGuild | dump_messages.py:445-447 | exactly that guild row is deleted |
| Store.Database.CountMedia | dump_messages.py:449-452 | the count is the number of media rows |
| Store.Database.GetGuilds | dump_messages.py:429-436 | every stored allow-listed guild other than the DM scope, each exactly once with its stored row, and nothing else |
| Store.Database.GetDmGuild | dump_messages.py:429-432 | the DM scope's row exactly when it is stored |
| Scraper.StoreAttachmentsKeys | dump_messages.py:219-238 | the attachment loop adds exactly the file ids of attachments with a truthy URL |
| Scraper.StoreAttachmentsAt | dump_messages.py:219-238 | each media row ends up as its first version, or its stored version, carrying the last URL listed for that file id |
| Scraper.StoreAttachmentsIdempotent | dump_messages.py:219-238 | storing a message's attachments twice leaves what storing them once leaves |
| Scraper.ApplyMessageEffect | dump_messages.py:193-238 | `process_message` stores the message with its content and media flag, its author and the attachments with a URL; only the message cursor of that scope moves; a DM channel is added only under `"@me"` |
| Scraper.ApplyMessageIdempotent | dump_messages.py:193-238 | processing the same message twice leaves what processing it once leaves |
| Scraper.ApplyPageEffect | dump_messages.py:180-182 | a page moves only its own scope's message cursor, to the page's search timestamp, and deletes no media row |
| Scraper.ApplyPagesGuilds | dump_messages.py:179-182 | after a walk the scope's message cursor is the last page's search timestamp and every other guild row is unchanged |
| Scraper.ApplyPagesKeepsMedia | dump_messages.py:179-182 | processing pages never deletes a media row |
| Scraper.DmRunResumes | dump_messages.py:184-191 | the DM walk starts from the stored message cursor (from the beginning under deep scrape), ends with the last page's timestamp as the cursor, keeps the media cursor and deletes no media row |
| Scraper.GuildsRunKeepsMediaCursors | dump_messages.py:174-182 | the guild walks never change any guild's media cursor, the column each guild walk resumes from, and delete no media row |
| Scraper.InsertGuildsEffect | dump_messages.py:57-61 | listing guilds adds exactly the listed ids, keeps both cursors of known guilds and starts new ones without cursors |
| Scraper.DiscordScraper.constructor | dump_messages.py:34-50 | start-up upserts the scraping account and the `"@me"` DM scope and records the media count at start |
| Scraper.DiscordScraper.FetchGuilds | dump_messages.py:52-63 | status 200 upserts every listed guild; any other status raises and changes nothing |
| Scraper.DiscordScraper.StoreChannelRows | dump_messages.py:79-86 | the channels table becomes `StoreTextChannels` of the old one: each listed text channel upserted in order |
| Scraper.DiscordScraper.VisitOrder | dump_messages.py:66-69 | the guilds the listing visits are exactly the stored allow-listed ones other than the DM scope, each once |
| Scraper.DiscordScraper.VisitGuilds | dump_messages.py:71-99 | the listing loop over a visiting order leaves the guilds and channels as `ListChannels` describes and ends as it does |
| Scraper.DiscordScraper.GetGuildChannels | dump_messages.py:65-99 | the guilds visited are exactly the stored allow-listed ones, each once, and the tables end as `ListChannels` over that order describes |
| Scraper.DiscordScraper.RecordMessageRows | dump_messages.py:194-218 | the message, user, cursor and DM-channel writes, in the order the source makes them |
| Scraper.DiscordScraper.StoreAttachmentRows | dump_messages.py:219-238 | the media table becomes `StoreAttachments` of the old one: one upsert per attachment with a truthy URL, in order |
| Scraper.DiscordScraper.ProcessMessage | dump_messages.py:193-238 | the tables after one message are `ApplyMessage` of the tables before |
| Scraper.DiscordScraper.ProcessPages | dump_messages.py:179-182 | the tables after a walk's pages are `ApplyPages` of the tables before |
| Scraper.DiscordScraper.ProcessGuildMessages | dump_messages.py:174-182 | the guilds walked are exactly the stored allow-listed ones other than the DM scope, each once with its stored row, from its media cursor, and the tables end as `GuildsRun` describes |
| Scraper.DiscordScraper.ProcessDms | dump_messages.py:184-191 | the DM walk leaves the tables as `DmRun` describes |
| Scraper.DiscordScraper.GetNewCount | dump_messages.py:240-243 | the count is the media rows added since start-up and is never negative |
| LegacyStore.UpsertGuild | main.py:303-311 | `insert_guild` sets the name, a known guild keeps its cursor, a new one has none, and other guilds are unchanged |
| LegacyStore.UpsertAccount | main.py:335-343 | `insert_scraping_account` stores that account's name only |
| LegacyStore.UpsertMedia | main.py:345-384 | a known file id gets only its URL replaced and the count stays; a new one adds the whole row and one to the count |
| LegacyStore.StampGuild | main.py:386-388 | only the named guild's cursor changes; an unknown guild is not created |
| LegacyStore.Database.constructor | main.py:240-243 | opening the database file keeps every row a previous run stored |
| LegacyStore.Database.InsertGuild | main.py:303-311 | the guilds table becomes `UpsertGuild` of the old one |
| LegacyStore.Database.InsertUser | main.py:313-321 | the statement is never accepted, so the call always raises and writes nothing |
| LegacyStore.Database.InsertChannel | main.py:323-333 | the channels table becomes `UpsertChannel` of the old one |
| LegacyStore.Database.InsertScrapingAccount | main.py:335-343 | the accounts table becomes `UpsertAccount` of the old one |
| LegacyStore.Database.InsertMedia | main.py:345-384 | the media table becomes `UpsertMedia` of the old one |
| LegacyStore.Database.UpdateGuildTimestamp | main.py:386-388 | the guilds table becomes `StampGuild` of the old one |
| LegacyStore.Database.RemoveGuild | main.py:405-407 | exactly that guild row is deleted |
| LegacyStore.Database.CountMedia | main.py:409-412 | the count is the number of media rows |
| LegacyStore.Database.GetGuilds | main.py:390-396 | every stored guild other than the DM scope, each exactly once with its row; there is no allow-list |
| LegacyStore.Database.GetDmGuild | main.py:390-393 | the DM scope's row exactly when it is stored |
| LegacyScraper.FirstWithUrl | main.py:189-202 | no attachment is chosen exactly when none has a truthy URL; otherwise the chosen one has a URL and every attachment before it has none |
| LegacyScraper.OneMediaWriteBounds | main.py:345-384 | a step that writes at most one media row deletes none, adds at most one and changes no other table |
| LegacyScraper.MessageOutcomeEffect | main.py:188-220 | a message raises exactly when one of its attachments has a truthy URL, after storing that one row; otherwise nothing changes |
| LegacyScraper.MessagesOutcomeOneWrite | main.py:184-186 | the messages of a page together write at most one media row and raise after it |
| LegacyScraper.PagesOutcomeOneWrite | main.py:175-178 | however many pages a walk yields, processing them writes at most one media row |
| LegacyScraper.GuildsRunOneWrite | main.py:170-178 | a whole guild run writes at most one media row, and does so only when it ends in the failed user insert; the guilds table, and with it every cursor, is unchanged, so the next run searches from the same place |
| LegacyScraper.DmRunOneWrite | main.py:180-186 | a whole DM run writes at most one media row, only when it ends in the failed user insert, and leaves every cursor unchanged |
| LegacyScraper.InsertGuildsEffect | main.py:51-55 | listing guilds adds exactly the listed ids, keeps known cursors and starts new guilds without one |
| LegacyScraper.DiscordScraper.constructor | main.py:28-44 | start-up upserts the scraping account and the `"@me"` DM scope and records the media count at start |
| LegacyScraper.DiscordScraper.FetchGuilds | main.py:46-57 | status 200 upserts every listed guild; any other status raises and changes nothing |
| LegacyScraper.DiscordScraper.StoreChannelRows | main.py:73-80 | the channels table becomes `StoreTextChannels` of the old one: each listed text channel upserted in order |
| LegacyScraper.DiscordScraper.VisitOrder | main.py:60-63 | the guilds the listing visits are exactly the stored ones other than `"@me"`, each once |
| LegacyScraper.DiscordScraper.VisitGuilds | main.py:64-93 | the listing loop over a visiting order leaves the guilds and channels as `ListChannels` describes and ends as it does |
| LegacyScraper.DiscordScraper.GetGuildChannels | main.py:59-93 | the guilds visited are exactly the stored ones other than `"@me"`, each once, and the tables end as `ListChannels` over that order describes |
| LegacyScraper.DiscordScraper.ProcessMessage | main.py:188-220 | the tables after a message, and whether it raised, are `MessageOutcome` of the tables before |
| LegacyScraper.DiscordScraper.ProcessMessages | main.py:176-178 | the tables after one page's messages, and whether a raise cut them short, are `MessagesOutcome` of the tables before |
| LegacyScraper.DiscordScraper.ProcessPages | main.py:175-178 | the tables after a walk's pages, and whether a raise cut it short, are `PagesOutcome` of the tables before |
| LegacyScraper.DiscordScraper.ProcessGuildMessages | main.py:170-178 | the guilds walked are exactly the stored ones other than `"@me"`, each once with its stored row, and the tables end as `GuildsRun` describes |
| LegacyScraper.DiscordScraper.ProcessDms | main.py:180-186 | the DM walk leaves the tables as `DmRun` describes, walking from no cursor under deep scrape even when the `"@me"` row is missing |
| LegacyScraper.DmRunMissingScope | main.py:180-183 | a missing `"@me"` row stops the DM run with nothing written exactly when deep scrape is off; under deep scrape the walk runs from no cursor whether or not the row exists |
| LegacyScraper.MediaPhaseOneWrite | main.py:437-439 | the guild walks followed, when they all finish, by the DM walk add at most one media row, delete none and change no other table |
| LegacyScraper.DiscordScraper.Scrape | main.py:433-439 | `main`'s calls in order: a non-200 guild fetch changes nothing; otherwise the channel listing visits each fetched guild other than `"@me"` once; the walks start exactly when the fetch was 200 and the listing finished, and then run over every listed guild once, on the tables the listing left, ending as `MediaPhase` describes; otherwise the tables are those the fetch and listing left; accounts and users are untouched and the media count grows by at most one |
| LegacyScraper.DiscordScraper.GetNewCount | main.py:222-225 | the count is the media rows added since start-up and is never negative |
| Export.GenerateMediaQuery | dump_to_cdl.py:38-70 | the query is the base query followed by one condition per given filter, and the parameters are the user id followed by one value per condition |
| Export.ConditionsCount | dump_to_cdl.py:54-68 | each appended condition holds exactly one placeholder |
| Export.BaseQueryCount | dump_to_cdl.py:47-52 | the base query holds exactly one placeholder, the user id's |
| Export.ClauseOrder | dump_to_cdl.py:54-68 | the conditions never repeat the user column and come in the fixed order guild, channel, content type, DM, NSFW |
| Export.PlaceholdersMatchParams | dump_to_cdl.py:47-70 | the query holds exactly as many placeholders as there are parameters, and the first parameter is the user id |
| Export.UnfilteredQuery | dump_to_cdl.py:47-52 | without filters the query is the base query and the only parameter is the user id |
| Export.InClauses | dump_to_cdl.py:54-68 | a condition appears for a filter exactly when the filter is given (truthy text, or a DM or NSFW flag that is not None) |
| Export.SelectsMeaning | dump_to_cdl.py:47-68 | a row is selected exactly when it joins a channel, belongs to the user and matches every given filter |
| Export.SelectedExactly | dump_to_cdl.py:72-80 | the rows the query yields are exactly the matching rows, in table order |
| Export.HexRoundTrip | dump_to_cdl.py:100 | the hexadecimal spelling of a number parses back to that number |
| Export.CheckCdnExpired | dump_to_cdl.py:97-103 | with `fix_cdn` off the URL is kept; with it on, a missing `ex` raises, a malformed one raises, and otherwise the URL keeps its host or gets the mirror host |
| Export.CdnExpiryBoundary | dump_to_cdl.py:100-102 | a link whose `ex` is second `n` gets the mirror host exactly from millisecond `n * 1000` on |
| Export.CdnExpiryPersists | dump_to_cdl.py:100-102 | a link redirected at one time is redirected at every later time |
| Export.UrlLinesShape | dump_to_cdl.py:115-117 | one line per selected row in order, each the row's checked URL; the lines stop short exactly when a check raises, at that row |
| Export.UserOutputShape | dump_to_cdl.py:107-117 | a user with no selected row writes nothing; otherwise the header `=== name (id)` comes first, then the URL lines |
| Export.UrlLinesWithoutFix | dump_to_cdl.py:97-103 | with `fix_cdn` off nothing raises and the lines are the stored URLs unchanged |
| Export.DumpWithoutFix | dump_to_cdl.py:105-117 | with `fix_cdn` off the dump is, for each user with media, the header followed by that user's stored URLs |
| Export.WriteUrls | dump_to_cdl.py:115-117 | the inner loop writes exactly the URL lines of the specification, stopping at the first raise |
| Export.Dump | dump_to_cdl.py:105-117 | the two loops write exactly the dump of the specification, stopping at the first raise |
| Export.Export | dump_to_cdl.py:138-152 | asking for `--dm` and `--nsfw` together writes nothing, and that happens exactly then; otherwise the dump runs with the filters taken from the options |

## Left out

- HTTP, JSON decoding and the aiohttp session are not modelled. Replies are values: a status plus the fields read. A JSON `null` and a missing key are not told apart where the source's `.get` default would differ.
- The request limiter and the sleeps after a rate-limited search are not modelled; a rate-limited reply is simply consumed and the same request repeats.
- The server is a finite list of replies. When it runs out the walk ends as `NoMoreReplies`, where the real loop would wait for more.
- Each walk is computed in full before its pages are applied. The search loop never reads the database, so the final tables are the same; the interleaving of requests and writes is not modelled.
- SQLite internals are not modelled: foreign keys are not enforced.
- `get_guild_channels` with an empty guild id re-lists every guild after a 429, because the retry passes a falsy id. The model retries the same guild instead.
- `get_channels` is not part of this model; no caller uses it.
- The command line, the `.env` token, logging and `close` are not modelled. `main.py`'s `main` is `LegacyScraper.DiscordScraper.Scrape` from `get_guilds` to `process_dms`; the final counts it logs are `GetNewCount` and `CountMedia`.
- `dump_messages.py`'s `main` is not modelled as one method. With `get_guild_channels` and `process_guild_messages` commented out there, it runs start-up, `get_guilds` and `process_dms`, which are modelled one by one.
- A guild entry whose `id` or `name` is missing (`guild.get("id")` gives None) is not modelled; `ApiGuild` holds both as strings.
- Row order: no query has an ORDER BY, so the order of the rows `get_guilds`, `get_users` and the exporter's media query return is whatever SQLite yields. `GetGuilds` picks it nondeterministically, and the exporter's "table order" (`Export.Selected`, `Export.SelectedExactly`) stands for that same unspecified order.
- Export.CheckCdnExpired: one `nowMs` serves the whole dump, whereas the source reads the clock again for every row, so a link that expires during the dump is judged as of a single instant.
- The exporter's `--user-id` option, which replaces `get_users` with the single named user, is not modelled. The dump runs over the users given.
- `check_user_has_media` is not a separate query; the dump asks whether the selection is empty.
- URL parsing and normalisation by `yarl` are not modelled. A URL is its scheme, host, the rest of the text and the pre-parsed `ex` parameter.
- The current time is a parameter in whole milliseconds, not a float.
- Output goes to a sequence of lines instead of an `aiofiles` file.
- CheckCdnExpired: accepts only plain hexadecimal digits, whereas Python's `int(x, 16)` also accepts a sign, surrounding whitespace, underscores and a `0x` prefix.
- The search message wrapper (`message[0]`) is not modelled; a page is a list of messages.
