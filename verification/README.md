# YouTube catalog crawler and batch inserter — a Dafny model

This project models the two stateful components of `youtube-parser-py`:

- **The catalog crawler** (`YoutubeAPIParser`, parser.py). `get_new_channels_id` runs one channel search and queues each channel id without its two-letter type prefix. `get_videos` walks a channel's uploads playlist (`"UU" + channel_id`) page by page, following `nextPageToken` cursors. It builds one video record per playlist item and picks the best thumbnail present (maxres, then high, then medium).
- **The staging buffer** (`Inserter`, db.py). It is a bounded FIFO of video records. `flush` drains it under a lock and sends what it drained to the column store in one bulk insert. A failed insert is logged and the batch is dropped.

Modules:

- `Common`: Option and Result.
- `Records`: the `VideoData` record. structs.py does not define it, so its fields are the keyword arguments at parser.py:113-121.
- `Http`: the HTTP client. Each reply is a status plus the decoded JSON fields the crawler reads. Replies come from a script, in request order, and every request is logged.
- `Catalog`: the crawler.
- `Staging`: the buffer, the store sink and the `Singleton` metaclass.

The pagination walk is specified by `PagesWalked`, the number of pages whose items are collected. It is also described independently by `IsStopIndex`: the first `m` pages are OK, each of them except the last has a cursor that leads to an OK page, and the last of them does not lead on. `PagesWalkedIsStopIndex` proves that these two agree. `WalkUploads`, the loop of `get_videos`, is proved against them.

Behaviour the model keeps as the code has it:

- Both argument errors of the search are `RuntimeError`s in the source. The model's `EmptyQuery` and `NonPositiveCount` constructors stand for their two messages.
- `get_new_channels_id` puts the ids on the crawler's own queue and returns nothing.
- `get_videos` returns the records as a list and does not push them to a sink.
- Calling a method outside `async with` raises `RuntimeError`.

## Model

| member | source | states |
|---|---|---|
| `Catalog.PickThumbnail` | parser.py:104-111 | A url is chosen iff one of maxres/high/medium is present. The chosen url is that of a present tier, and no better tier is present. A missing "thumbnails" key counts as empty. |
| `Catalog.StripPrefix` | parser.py:85 | The result is the id with its first two characters removed (the prefix plus the result gives back the id). Shorter ids give the empty string, as Python's `[2:]` does. |
| `Catalog.StripTypePrefix` | parser.py:85 | Any two-character prefix is removed exactly, e.g. "UCabc123" becomes "abc123". |
| `Catalog.StripAll` | parser.py:84-85 | One stripped id per search hit, in reply order. |
| `Catalog.ParseVideo` | parser.py:101-121 | The record's fields come from the item's snippet and video id. The thumbnail is the preferred one. `publishedAt` is kept as an opaque timestamp. |
| `Catalog.ParseAll` | parser.py:101-121 | One record per item of a page, in item order. |
| `Catalog.AppendRecords` | parser.py:101-121 | The item loop appends exactly the page's records, in order, after those gathered so far. |
| `Catalog.RecordsUpToPrefix` | parser.py:97-129 | The records of the first k pages depend only on those pages, so later replies cannot change them. |
| `Catalog.WalkFrom` | parser.py:99-128 | A walk that has read an OK page reads at least that page, and never more pages than there are replies. |
| `Catalog.PagesWalked` | parser.py:93-128 | The number of pages a walk collects items from is bounded by the replies available. |
| `Catalog.RequestsIssued` | parser.py:93-128 | A walk makes at least one request and at most one more than the replies in the script. |
| `Catalog.WalkLog` | parser.py:90-93 | The request log keeps every earlier entry. The first walk request is for playlist `"UU" + channel_id` with no cursor. Request j carries the cursor of page j-1. |
| `Catalog.WalkFromStops` | parser.py:99-128 | The page count a walk reaches meets the stop rule. |
| `Catalog.StopIndexUnique` | parser.py:99-128 | At most one page count meets the stop rule. |
| `Catalog.PagesWalkedIsStopIndex` | parser.py:93-128 | A page count meets the stop rule iff it is the count the walk reaches. |
| `Catalog.WalkStopsAfter` | parser.py:123-128 | Stopping after OK page k, when no cursor or a failed next reply ends the walk, gives the records of pages 0..k. That takes k+1 requests, or k+2 when the failed request was made. |
| `Catalog.WalkIgnoresLaterPages` | parser.py:123-128 | Replies after the stop are never read: adding more leaves the result and the requests unchanged. |
| `Catalog.FirstPageFails` | parser.py:93-95 | A failing first reply gives an empty list after exactly one request. |
| `Catalog.ThreeLinkedPages` | parser.py:99-129 | Three OK pages linked by two cursors, the last without one: the items of all three pages in page order, three requests, nothing from later replies. |
| `Catalog.SecondPageFails` | parser.py:126-128 | A failing second reply: only the first page's items, two requests, and no error. |
| `Catalog.NextPageReply` | parser.py:126-127 | The request after page k gets reply k+1 when it exists, otherwise a failing reply. |
| `Catalog.ReadPage` | parser.py:99-128 | One loop turn adds page k's records. It goes on exactly when the page has a cursor and the next reply is OK. It issues one request iff the page has a cursor. |
| `Catalog.WalkUploads` | parser.py:90-129 | The walk returns the records of the first `PagesWalked` replies. It logs the first request for `"UU" + channel_id` and then one request per cursor followed, and consumes exactly those replies. |
| `Catalog.Parser.constructor` | parser.py:44-52 | A new crawler has no client and an empty channel queue. |
| `Catalog.Parser.Enter` | parser.py:54-63 | Entering installs an open client and leaves the queue alone. |
| `Catalog.Parser.Exit` | parser.py:65-68 | Leaving closes the client and drops it. A second exit changes nothing. |
| `Catalog.Parser.GetNewChannelsId` | parser.py:70-85 | The checks run in order, with no request and no queue change on failure: no client, then empty query (whatever the count), then count <= 0. Otherwise one search request is made and the client stays open. A non-OK reply adds nothing. An OK reply appends each hit's id without its prefix, in order, and a reply without "items" adds nothing. |
| `Catalog.Parser.GetVideos` | parser.py:87-129 | Without a client it raises before any request. Otherwise it returns the records of the first `PagesWalked` replies (empty when the first reply fails) and issues exactly the walk's requests. |
| `Staging.RowOf` | db.py:54-55 | One cell per column, in the record's field order. The record can be read back from its row (NULL for an absent thumbnail). |
| `Staging.Rows` | db.py:54 | One row per record of the batch, in batch order. |
| `Staging.RowsRoundTrip` | db.py:54-55 | Every record of a batch is recovered from its row. |
| `Staging.Inserter.constructor` | db.py:19-26 | Table "video_information", the given interval and capacity, an empty queue, no client. |
| `Staging.Inserter.Enter` | db.py:28-32 | Entering installs an open store client and leaves the queue alone. |
| `Staging.Inserter.Exit` | db.py:34-37 | Leaving closes the client and drops it. A second exit changes nothing. |
| `Staging.Inserter.InsertWait` | db.py:78-79 | The record is appended at the tail, earlier entries are unchanged, and the queue stays within its capacity. |
| `Staging.Inserter.GetNowait` | db.py:67 | Removes and returns the head of the queue. |
| `Staging.Inserter.InsertAsync` | db.py:51-60 | Exactly one bulk call to "video_information" with one row per record and the record's field names as columns. Without a client it fails. |
| `Staging.Inserter.Drain` | db.py:63-67 | The batch is exactly the qsize() records present, head first, and the queue is left empty. |
| `Staging.Inserter.WriteBatch` | db.py:69-76 | An empty batch makes no call. A non-empty batch makes exactly one. A failed call returns normally and adds nothing to what the store accepted. |
| `Staging.Inserter.Flush` | db.py:62-76 | The queue is empty afterwards, even when the write fails, so a failed batch is not put back. The store receives no call for an empty queue and otherwise one call holding the drained records in FIFO order. |
| `Staging.Inserter.RunTicks` | db.py:81-84 | Flushes once per tick. The first flush sends the queued records. Later ones find the queue empty and make no call, and a failed write never stops the loop. The store accepts either nothing or that one call. |
| `Staging.Singleton.constructor` | db.py:11 | The instance cache starts empty. |
| `Staging.Singleton.NewInserter` | db.py:12-15 | The first construction builds and caches an instance with the given arguments. Later ones return the cached instance and ignore their arguments. |
| `Staging.ConstructTwice` | db.py:10-19 | Two constructions give the same object, configured by the first call. |
| `Staging.EnqueueDuringWrite` | db.py:62-79 | A record put after the drain and before the write is not in the written batch. It stays queued for the next flush. |

## Left out

- The httpx transport and its configuration (timeouts, limits, headers, base url, API key) and the query strings beyond the search query, the count, the playlist id and the cursor. A reply is the status plus the JSON fields the crawler reads. A request beyond the end of a reply script gets a reply with a non-OK status.
- Exceptions raised while a request is handled: an httpx transport error or timeout from `client.get` (parser.py:80, :93, :126), a decode error from `response.json()`, and the `KeyError` of a search hit without `snippet.channelId` (parser.py:85). In the source each propagates out of `get_new_channels_id` or `get_videos`, and `get_videos` loses the records it has gathered so far. The model has no reply that raises.
- JSON shape errors: a playlist page without "items", or an item without one of the snippet fields the crawler reads, raises `KeyError` in the source. The model's items always carry those fields.
- Staging.ColumnNames: no source file declares `VideoData`, so the column names and their order (the fields in the keyword order of parser.py:113-121) are the model's assumption. It also assumes that `model_dump()` carries no defaulted field such as the table's `is_downloaded` (db.py:47).
- `datetime.fromisoformat` on `publishedAt`: the timestamp is kept as an opaque string.
- Logging in both files, including the success and failure lines of `flush`.
- The ClickHouse client: connecting, `create_table` and its SQL, the table schema, `ReplacingMergeTree` deduplication and the `async_insert` settings. The store is a sink that records each bulk call and may fail any of them. The table created at db.py:40-49 has no `channel_title` column while the inserted rows carry one; that can only show up in the storage engine, which is not modelled.
- The asyncio lock and true interleaving: the drain is one atomic step (`Drain`), and only an enqueue between the drain and the write is shown (`EnqueueDuringWrite`).
- Staging.Inserter.InsertWait: a put into a full queue waits in the source; the model requires room instead of modelling the wait.
- Staging.Inserter.RunTicks: `run` loops forever with a sleep between flushes; the model runs a given number of ticks and leaves out the sleep.
- `DownloaderDB` (db.py:87-118) and downloader.py: database polling, random ordering and the download subprocess.
- functions.py (logger setup), lib.py and main.py (entry points that call methods the crawler does not have), and structs.py (`ChannelData`, which no core code uses).
- Staging.Singleton.NewInserter: the metaclass cache is keyed by class. Only the `Inserter` key is modelled, because `DownloaderDB` is not part of this model.
- The source has no code that fans walks out over the discovered channels or drives crawl cycles: lib.py:8 and main.py:8 call crawler methods that do not exist.
