# mcp4agent core, modelled in Dafny

mcp4agent exposes two sets of tools. The WeChat content tools create drafts, upload images, list drafts and publish them. The Docker tools list containers, read their stats and logs, and restart them. This project models the decision logic behind those tools and proves its properties:

- **The access-token cache** (`TokenCache.dfy`, module `TokenCaching`). It keeps one `(token, expire_at)` record per application id under the key `"access_token_" + app_id`. A record is served while `now < expire_at`. Otherwise the cache asks the issuer. A token that comes back is stored with `expire_at = issued_at + expires_in - 200`, where `expires_in` defaults to 7200. A failed exchange writes nothing. `clear_cache` drops one record or all of them. The cache is a class with a map field. The spec function `GetToken` gives a call's result, the issuer request it sends, and the new store. The lemmas over runs of calls state the caching guarantees: one fetch per lifetime, and a record survives calls that spare it. `get_token_cache`'s lazily created single instance is a slot class.
- **The content client** (`WeChatApi.dfy`, module `WeChatContent`). Each operation takes the token, its arguments and what the request came to: a decoded JSON reply (`Json.dfy`) or an exception. It gives back the request it sent, if any, and its result. The operations are the token guard, the draft article builder, the `media_id` and `errcode` checks, and the all-or-nothing `list_drafts` projection. Python's semantics are kept throughout: an exception is turned into the failure value, `False == 0`, and the empty string is falsy. The `WeChatAPI` object is a class that gets its token from the shared cache before each operation.
- **The container tools** (`DockerStatus.dfy`, module `DockerStatus`). This covers the guarded CPU percentage and the memory percentage (exact `real`), the network byte sums, the log lines kept, and the rows of the container listing. The listing is built by a loop, as in the source. It also covers how `NotFound` is reported apart from other runtime errors. The runtime client's results (or exceptions) are inputs.
- `PyText.dfy` gives Python's slicing, `split`, `join` and `<` formatting with CPython's semantics. It proves that `split` and `join` are mutual inverses.

Inputs in place of effects: the clock (`now` when the cached record is tested, and `issuedAt` after the issuer replied, because the source reads `time.time()` twice), the issuer exchange (`Issue`), every content reply (`Response`) and every container-runtime result (`DockerResult`).

Where the source's own documentation and its code differ, the model follows the code:
- The docstring of `get_container_logs` (src/docker_status/server.py:115) says that by default the logs are read "from the head". The code does otherwise. With `tail` false, it keeps the *last* `lines` pieces. With `tail` true, it keeps every piece.

`list_drafts` gives `[]` both on failure and on an empty page, so its result cannot tell the two apart.

## Model

| member | source | states |
|---|---|---|
| TokenCaching.CacheKey | src/wechat_mcp/token_cache.py:30 | the key is the prefix `access_token_` followed by the id, recoverable from the key |
| TokenCaching.CacheKeyInjective | src/wechat_mcp/token_cache.py:30 | two application ids share a key iff they are equal, so distinct apps never share a record |
| TokenCaching.ExpireAt | src/wechat_mcp/token_cache.py:54-55 | expiry is issue time + `expires_in` - 200; with no `expires_in` it is issue time + 7000 |
| TokenCaching.GetToken | src/wechat_mcp/token_cache.py:19-66 | issuer asked iff no valid record (the helper HasValid: a record whose expiry is later than now, :34-36), and the request is RequestFor the app (:41-46); a valid record is returned with the store unchanged; a token is returned iff hit or successful exchange, and it is what the store holds; success replaces the record with (token, shortened expiry); failure leaves the store, stale record included, unchanged; other apps' records never change |
| TokenCaching.Cleared | src/wechat_mcp/token_cache.py:68-74 | a truthy id removes exactly that app's key and keeps every other record; `None` or `""` empties the store |
| TokenCaching.TokenCache.constructor | src/wechat_mcp/token_cache.py:14-17 | a new cache starts with an empty store |
| TokenCaching.TokenCache.GetAccessToken | src/wechat_mcp/token_cache.py:19-66 | the returned token, the issuer request and the new store are exactly those of GetToken on the old store |
| TokenCaching.TokenCache.ClearCache | src/wechat_mcp/token_cache.py:68-74 | the new store is Cleared of the old store |
| TokenCaching.TokenCacheSlot.constructor | src/wechat_mcp/token_cache.py:81 | the module-level slot starts empty (`None`) |
| TokenCaching.TokenCacheSlot.GetTokenCache | src/wechat_mcp/token_cache.py:85-90 | the first call creates a fresh empty cache and stores it; every later call returns the stored instance |
| TokenCaching.GetTokenCacheTwice | src/wechat_mcp/token_cache.py:85-90 | two successive calls of `get_token_cache` return the same object |
| TokenCaching.RecordSurvives | src/wechat_mcp/token_cache.py:36-37 | by induction over any run of calls that spare a record (other apps, hits, failed exchanges, clearing another app), the record is still there, unchanged |
| TokenCaching.NoFetchWhileValid | src/wechat_mcp/token_cache.py:33-37 | any number of lookups for an app before its record expires make zero issuer requests and leave the store as it was |
| TokenCaching.RefreshThenServe | src/wechat_mcp/token_cache.py:36-59 | a missed lookup whose exchange succeeds at t with lifetime e makes one request; every later lookup before t + e - 200 returns that token with no request |
| TokenCaching.FreshStoreScenario | src/wechat_mcp/token_cache.py:52-59 | fresh store, reply T1 with 7200 s: record (T1, issue time + 7000); an immediate second call returns T1 with no issuer request |
| PyText.Prefix | src/docker_status/server.py:39-41 | `s[:n]` is the first min(n, len) elements of s |
| PyText.SliceFrom | src/docker_status/server.py:137 | `s[k:]` is always a suffix; its length for each range of k, negative k counting from the end |
| PyText.Split | src/docker_status/server.py:135 | `split` gives at least one piece and no piece contains the separator |
| PyText.JoinSplit | src/docker_status/server.py:135-140 | joining the split pieces with the separator gives back the text |
| PyText.SplitJoin | src/docker_status/server.py:135-140 | splitting a join of separator-free pieces gives back the pieces |
| PyText.Join | src/docker_status/server.py:43 | `sep.join(parts)` is empty for no parts; otherwise its first characters are those of the first part and its last characters those of the last part |
| PyText.PadRight | src/docker_status/server.py:45 | `f"{s:<w}"` keeps s, pads with spaces to width w, never cuts |
| Json.GetOr | src/wechat_mcp/api.py:146-150 | `dict.get(key, default)` is the stored value when present, else the default |
| Json.DictGet | src/wechat_mcp/api.py:148 | `.get` succeeds exactly on objects; on anything else it raises |
| WeChatContent.Url | src/wechat_mcp/api.py:43 | the url is the API base, the endpoint path and `?access_token=`, then the token, then `&type=image` exactly for the two image uploads; every operation sends its request to this url |
| WeChatContent.MediaIdOf | src/wechat_mcp/api.py:50-54 | a media id is read iff the reply is an object holding a non-null `media_id`, and it is that field; a null field is `None` as in Python |
| WeChatContent.ErrcodeIsZero | src/wechat_mcp/api.py:169 | success iff the reply is an object whose `errcode` is present and equals 0 in Python's sense (0 or false, the helper Json.EqualsZero) |
| WeChatContent.DraftArticle | src/wechat_mcp/api.py:108-117 | the article has exactly the five fixed keys with title, content, show_cover_pic, need_open_comment=1, only_fans_can_comment=0, plus `thumb_media_id` iff the cover id is truthy |
| WeChatContent.DraftBody | src/wechat_mcp/api.py:120 | the draft/add body has the single key `articles`, a one-element list holding the article |
| WeChatContent.ProjectItem | src/wechat_mcp/api.py:146-150 | an item projects iff it and its `content` (default `{}`) are objects and `news_item` (default `[{}]`) is a non-empty list whose first element is an object; then it gives `media_id` (or null), that element's `title` (or `""`) and `update_time` (or 0) |
| WeChatContent.ProjectItems | src/wechat_mcp/api.py:145-152 | the projection succeeds iff every item projects; then it has one entry per item, in order |
| WeChatContent.DraftsOf | src/wechat_mcp/api.py:144-153 | an `item` list whose items all project gives that projection, one entry per item, in order; no reply, a non-object, no `item` key, a non-list `item` or an item that does not project gives `[]` |
| WeChatContent.UploadImage | src/wechat_mcp/api.py:29-57 | no token or an unopenable file: nothing sent, None; else one multipart request to add_material with the token; the media id iff the reply has a non-null one |
| WeChatContent.UploadTempImage | src/wechat_mcp/api.py:59-79 | as UploadImage, against media/upload |
| WeChatContent.CreateDraft | src/wechat_mcp/api.py:83-130 | no token: nothing sent, None; else one request carrying the one-article `articles` body; the media id iff the reply has one |
| WeChatContent.ListDrafts | src/wechat_mcp/api.py:132-156 | no token: nothing sent, `[]`; else one request with offset and count, and the page of DraftsOf the reply: the projected items in order, or `[]` |
| WeChatContent.DeleteDraft | src/wechat_mcp/api.py:158-172 | no token: nothing sent, false; else one request with the media id; true iff token and errcode 0 |
| WeChatContent.PublishDraft | src/wechat_mcp/api.py:176-203 | no token: nothing sent, false; else one request to freepublish/submit; true iff token and errcode 0 |
| WeChatContent.NoTokenNoRequest | src/wechat_mcp/api.py:39-41 | for every operation, an absent or empty token (falsy in Python's sense, the helper HasToken) means no request and the failure value (`None`, `[]`, `False`) |
| WeChatContent.RequestCarriesToken | src/wechat_mcp/api.py:43-47 | for every operation, a token means exactly one request carrying that token, sent to the Url of its endpoint with that token, except an upload whose file cannot be opened, which sends nothing |
| WeChatContent.RaisedGivesFailure | src/wechat_mcp/api.py:55-57 | for every operation, an exception in the request yields the failure value and never propagates |
| WeChatContent.CoverIdOnlyWhenGiven | src/wechat_mcp/api.py:116-117 | `thumb_media_id` is in the article iff the cover id is truthy |
| WeChatContent.MissingErrcodeFails | src/wechat_mcp/api.py:196-200 | a reply without `errcode` is a failure (default -1) |
| WeChatContent.NoContentEmptyTitle | src/wechat_mcp/api.py:148 | an item without `content` gets title `""`, its media id (or null) and its update time (or 0) |
| WeChatContent.WellFormedItem | src/wechat_mcp/api.py:146-150 | a well-formed item projects to its media id, first news item's title and update time |
| WeChatContent.EmptyNewsItemSpoilsPage | src/wechat_mcp/api.py:148-156 | one item with an empty `news_item` list makes the whole page `[]` (the IndexError is caught) |
| WeChatContent.ProjectItemsAppend | src/wechat_mcp/api.py:145-152 | projecting a concatenation succeeds iff both parts do, and is the concatenation of their projections |
| WeChatContent.DraftWithoutCoverScenario | src/wechat_mcp/api.py:108-127 | `create_draft("Hello", "<p>Hi</p>")` without a cover sends an article without `thumb_media_id` and returns M1 from {"media_id": "M1"} |
| WeChatContent.WeChatApi.constructor | src/wechat_mcp/api.py:13-16 | a falsy app id or secret is replaced by the configured one; the client uses the given shared cache |
| WeChatContent.WeChatApi.Run | src/wechat_mcp/api.py:18-20 | an operation first takes its token from the shared cache (GetToken on the cache's store), then runs on that token |
| WeChatContent.WeChatApiSlot.constructor | src/wechat_mcp/api.py:207 | the module-level slot starts empty (`None`) |
| WeChatContent.WeChatApiSlot.GetWeChatApi | src/wechat_mcp/api.py:210-215 | the first call builds a client from the configuration on the shared token cache; later calls return the same client |
| DockerStatus.Classify | src/docker_status/server.py:101-104 | NotFound becomes the not-found report naming the requested reference; any other runtime error becomes the generic error with its message |
| DockerStatus.CpuCount | src/docker_status/server.py:75 | the CPU count is `online_cpus`, 1 when absent |
| DockerStatus.CpuPercent | src/docker_status/server.py:71-80 | with both deltas (the helpers CpuDelta and SystemDelta, :71-74) positive, percent × system delta = cpu delta × cpu count × 100; otherwise 0; never negative when the cpu count is not negative |
| DockerStatus.CpuPercentAtMostAllCpus | src/docker_status/server.py:77-78 | if the container's delta is within the system delta, the percentage is at most 100 per CPU (the real-number step is the helper FractionScaledAtMost) |
| DockerStatus.MemoryPercent | src/docker_status/server.py:83-85 | percent × limit = usage × 100, for a non-zero limit |
| DockerStatus.MemoryPercentInRange | src/docker_status/server.py:85 | usage within the limit gives a percentage in [0, 100] |
| DockerStatus.HalfMemory | src/docker_status/server.py:85 | 104857600 of 209715200 is exactly 50 percent |
| DockerStatus.TotalsAppend | src/docker_status/server.py:95-96 | the rx and tx sums split over a concatenation of network entries |
| DockerStatus.RxTotal | src/docker_status/server.py:95 | the received sum is 0 for no networks and never negative when no counter is |
| DockerStatus.TxTotal | src/docker_status/server.py:96 | the sent sum is 0 for no networks and never negative when no counter is |
| DockerStatus.TotalsBoundEntries | src/docker_status/server.py:95-96 | each network's counters are bounded by the sums |
| DockerStatus.NetworkLine | src/docker_status/server.py:93-97 | the network line is present iff there is a network, and then carries the rx and tx sums |
| DockerStatus.ContainerStats | src/docker_status/server.py:64-104 | runtime errors are classified; a zero memory limit escapes the tool (ZeroDivisionError); any other sample is reported with its short id, name, memory usage and limit, and the CPU, memory and network figures |
| DockerStatus.LogsTail | src/docker_status/server.py:126 | the runtime is asked for every line when reading from the tail, else for the last `lines` |
| DockerStatus.KeptLines | src/docker_status/server.py:135-137 | the kept pieces are a suffix of the split text; all of them when reading from the tail or when they do not exceed `lines`; exactly `lines` of them when 0 < lines < piece count |
| DockerStatus.KeptAllIsOriginal | src/docker_status/server.py:135-140 | when nothing is cut, the shown text equals the runtime's text |
| DockerStatus.ZeroLinesKeepsAll | src/docker_status/server.py:136-137 | `lines = 0` keeps every piece, since `log_lines[-0:]` is the whole list |
| DockerStatus.NegativeLinesDropFront | src/docker_status/server.py:136-137 | a negative `lines` drops that many pieces from the front |
| DockerStatus.TerminatedLinesLoseOldest | src/docker_status/server.py:124-137 | `lines` newline-terminated lines keep only the newest `lines - 1` lines plus an empty piece |
| DockerStatus.ContainerLogs | src/docker_status/server.py:120-147 | the runtime receives tail "all" or `lines`; errors are classified; the report shows the kept pieces joined by newlines |
| DockerStatus.RestartContainer | src/docker_status/server.py:161-172 | a restart is reported with the container's short id and name; errors are classified |
| DockerStatus.NotFoundReportedApart | src/docker_status/server.py:144-147 | stats, logs and restart all report NotFound as not-found and every other runtime error as the generic error |
| DockerStatus.RowOf | src/docker_status/server.py:39-43 | id is the short id cut to 12; name cut to 24; image is the first tag, else the image id cut to 28; status as is; ports joined by ", ", "-" when none |
| DockerStatus.RowLine | src/docker_status/server.py:45 | an id of at most 15 and a name of at most 25 characters fill the columns at offsets 0 and 16; then the padded image (a long tag is not cut and widens its column to w) sits at 42, one space, the padded status (width v) at 43 + w, one space, and the line is 45 + w + v plus the ports long; the line always ends with the ports and a newline |
| DockerStatus.RowLineFixedColumns | src/docker_status/server.py:45 | when id, name, image and status all fit their widths, the image column is at 42, the status column at 73 and the ports at 89, and the line is 90 plus the ports long |
| DockerStatus.CellsAt | src/docker_status/server.py:45 | in five cells joined by single spaces and ended by a newline, each cell sits right after the previous cell and its space, and the last one ends the line before the newline |
| DockerStatus.RowColumns | src/docker_status/server.py:39-45 | every row's id column is 15 wide and its name column starts at offset 16 and is 25 wide; the line ends in a newline; for an untagged image and a status of at most 15 characters, the container's status is in the column at offset 73; for any image, the container's padded status follows right after the image column and its space |
| DockerStatus.Lines | src/docker_status/server.py:38-45 | the listing's rows: exactly one RowLine of RowOf per container, in the containers' order |
| DockerStatus.LinesSnoc | src/docker_status/server.py:38-45 | one more container appends its row line at the end of the rows |
| DockerStatus.ListContainers | src/docker_status/server.py:27-50 | any runtime error, not-found included, is a connection failure; no containers gives the empty-list message; otherwise the table is Lines of the containers, one row line per container, in order |

## Left out

- HTTP transport (`requests`), its timeouts (10 s and 30 s) and the upload file opens are I/O. Each request's outcome is a `Response` or `Issue` input. Whether an upload's file can be opened is a flag of the upload operation.
- JSON decoding of the issuer reply is summarized as `Issue`. A non-string `access_token`, a non-numeric `expires_in` (whose TypeError the source catches) and floats are not modelled. JSON numbers are integers throughout, and dict key order is not modelled.
- `diskcache` storage is modelled as an in-memory map. Left out: persistence across restarts, directory creation, the `expire=7000` library setting and `close()`.
- `time.time()` is left out; each reading is a parameter.
- The Docker client and its calls are left out. Stats arrive as typed records, so a missing key (a KeyError the tools do not catch) is not modelled. Also left out: the `restart(timeout=10)` argument, the `all=` flag of the listing, and UTF-8 decoding of log bytes.
- Presentation text is left out: emoji and Chinese messages, the listing header and rule line, `:.2f` rounding and the `/1024` unit conversions.
- Also left out:
  - `_request`, which no operation calls;
  - `print` logging;
  - the FastMCP tool glue in src/wechat_mcp/server.py;
  - environment reads in src/wechat_mcp/config.py, reduced to a `Config` value with the defaults `""`;
  - the launchers and package `__init__` re-exports.
- Default argument values are not modelled: every member takes these as explicit parameters. They are `lines=50` and `tail=False` of `get_container_logs` (src/docker_status/server.py:108), `offset=0` and `count=20` of `list_drafts` (src/wechat_mcp/api.py:132), and `show_cover_pic=0` of `create_draft` (src/wechat_mcp/api.py:88).
- Concurrent processes sharing the cache directory (last writer wins) are a concurrency concern and are not modelled.
- TokenCaching.GetToken: the two clock readings are independent parameters. The model does not relate them, just as `time.time()` does not guarantee order.
- DockerStatus.RowOf: `"-"` is promised only for an empty port list, because a single port key `"-"` would render the same.
