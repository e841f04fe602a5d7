# mediafeed-backend feed view, modelled in Dafny

The backend has one endpoint. Given a username, it resolves a YouTube
channel by matching the username against channels' custom URLs. It then
returns the channel's recent videos as `{title, thumbnail, link}` records.
This project models the data handling of that view (`feed/views.py`):

- `find_channel_by_custom_url`, as `FeedViews.FindChannelByCustomUrl`. It
  searches for channels and keeps the `channelId` of every
  `youtube#channel` hit, in order. If none are left, the result is
  NotFound and no lookup is made. Otherwise it looks all the ids up in one
  batch: the ids comma-joined, with `maxResults` equal to their number.
  It returns the id of the first record whose custom URL is present, not
  empty, and equal to the query once both are lower-cased. An `HttpError`
  from either call becomes a 400 error response whose text is
  `An HTTP error <status> occurred: <content>`.
- `process_data`, as `FeedViews.ProcessData`. It maps each video hit, in
  order, to its title, the url of its `high` thumbnail, and the link
  `https://www.youtube.com/watch?v=<videoId>`.

The two platform calls are parameters of the resolver. Each is a function
from the request the view builds (`SearchRequest`, `ChannelsRequest`) to
the platform's reply: either the reply's `items` or a raised `HttpError`.
This ties each reply to the request that was sent. "No lookup is issued"
is then stated as "the result does not depend on the lookup function".

Helpers for the Python built-ins the view uses are in module `Text`
(`text.dfy`). They cover ASCII `str.lower`, `str.join` and its inverse
`str.split`, and decimal rendering of the status code with its inverse.
The view itself is module `FeedViews` (`views.dfy`).

## Model

| member | source | states |
|---|---|---|
| FeedViews.FindChannelByCustomUrl | feed/views.py:14-45 | The whole resolver: search, filter, batched lookup, first match, and HttpError to a 400 response; the result is a failure exactly when the search raised, or the lookup raised after a search that kept some id, and any failure carries status 400 |
| FeedViews.ChannelSearchRequest | feed/views.py:14-23 | The first search asks for the query text, the result type `channel`, and the caller's limit (the resolver's `maxResults` defaults to 10, as `max_results` does) |
| FeedViews.ChannelIds | feed/views.py:25 | The kept ids are no more than the hits; none are kept exactly when no hit has kind `youtube#channel`; every channel-kind hit's id is kept |
| FeedViews.ChannelIdsAppend | feed/views.py:25 | The filter keeps order: the ids of `a + b` are the ids of `a` followed by the ids of `b` |
| FeedViews.ChannelIdsOfOne | feed/views.py:25 | A single hit contributes its `channelId` if its kind is `youtube#channel`, and nothing otherwise (dropped silently) |
| FeedViews.ChannelIdsFromChannelHits | feed/views.py:25 | Every kept id is the `channelId` of some channel-kind hit |
| FeedViews.NoChannelHitsMeansNotFound | feed/views.py:27-28 | With no channel-kind hit the result is NotFound, and it is the same whatever the lookup would answer, so no lookup is issued |
| FeedViews.ChannelsLookupRequest | feed/views.py:30-35 | The lookup's `maxResults` equals the number of kept ids, and for a non-empty comma-free list its `id` argument splits back on `,` into exactly the kept ids, in order |
| Text.Join | feed/views.py:31 | The joined text is empty for no parts, starts with the first part, ends with the last, and has the separator right after the first part when there are two or more |
| Text.SplitJoin | feed/views.py:31 | `','.join` is undone by `split(',')` for a non-empty list of parts without commas |
| FeedViews.CustomUrlMatches | feed/views.py:38-39 | A record matches exactly when its custom URL is present, non-empty, as long as the query, and at every position holds the query's character or the same ASCII letter in the other case |
| FeedViews.FirstMatch | feed/views.py:37-42 | The index returned is that of a matching record with no matching record before it; no index is returned exactly when no record matches |
| FeedViews.FoundIsFirstMatch | feed/views.py:30-40 | A found id belongs to the first matching record, in the lookup's order, of the lookup issued for the kept ids |
| FeedViews.FirstMatchingRecordIsFound | feed/views.py:30-40 | Conversely, when both calls succeed and record `i` is the first matching one, the result is `Found` with that record's id |
| FeedViews.BlankCustomUrlNeverMatches | feed/views.py:38-39 | A record whose custom URL is missing or empty never matches, whatever the query |
| FeedViews.NotFoundExactly | feed/views.py:25-42 | NotFound holds exactly when the search succeeds and either keeps no id or its lookup succeeds with no matching record |
| FeedViews.FirstMatchIgnoresQueryCase | feed/views.py:39 | Queries that are equal ignoring case select the same record |
| FeedViews.FirstMatchIgnoresStoredCase | feed/views.py:38-39 | Changing the case of stored custom URLs does not change which record matches first, or whether any does |
| FeedViews.ResolutionIgnoresQueryCase | feed/views.py:14-42 | The resolver's result is the same for two queries equal ignoring case, when the search answers both alike |
| FeedViews.MixedCaseQueryResolvesToFirstListed | feed/views.py:25-40 | Worked case: a playlist hit is dropped, a record without a custom URL is skipped, and of two case variants of the query the first listed wins |
| Text.Lower | feed/views.py:39 | Lower-casing keeps the length, turns each ASCII capital into the small letter 32 code points above it, and leaves every other character unchanged |
| Text.LowerIdempotent | feed/views.py:39 | Lower-casing twice is lower-casing once |
| Text.EqualIgnoringCaseCharwise | feed/views.py:39 | Two strings have equal lower-case forms exactly when they have the same length and, at each position, the same character or the same ASCII letter in different case |
| FeedViews.HttpErrorsBecomeBadRequest | feed/views.py:44-45 | An HttpError from the search, or from the lookup after it, gives status 400 with text `An HTTP error <status> occurred: <content>` |
| FeedViews.HttpErrorResponse | feed/views.py:45 | The error response has status 400, starts with `An HTTP error `, and its text reads back to the same status and content, which by FeedViews.ParsedMessageIsTemplate makes it exactly `An HTTP error <status> occurred: <content>` |
| FeedViews.HttpErrorMessage | feed/views.py:45 | The error text starts with `An HTTP error ` and reads back to the HttpError's status and content, so it is exactly `An HTTP error <status> occurred: <content>` |
| FeedViews.HttpErrorMessageRoundTrip | feed/views.py:45 | Reading the text `An HTTP error <status> occurred: <content>` back gives that status and that content |
| FeedViews.ParsedMessageIsTemplate | feed/views.py:45 | Any text that reads back to an HttpError is exactly the template filled with that status (no leading zeros) and content, so the read-back contracts above pin the error text character for character |
| Text.Decimal | feed/views.py:45 | The rendered status is non-empty, all digits, and has no leading zero |
| Text.DecimalRoundTrip | feed/views.py:45 | Reading the rendered status back as a number gives the status |
| Text.DecimalCanonical | feed/views.py:45 | A digit string without leading zeros is the rendering of the number it denotes |
| FeedViews.ProcessData | feed/views.py:69-78 | One record per hit, in the same order; the title unchanged; the thumbnail is the `high` thumbnail's url; the link reads back to the hit's videoId |
| FeedViews.ProcessDataAppend | feed/views.py:71-78 | Each hit is projected on its own: the records for `a + b` are those for `a` followed by those for `b` |
| FeedViews.WatchLink | feed/views.py:75 | A link is `https://www.youtube.com/watch?v=` followed by the videoId, which can be read back from it |
| FeedViews.WatchLinkInjective | feed/views.py:75 | Distinct video ids give distinct links |

## Left out

- The Django `View`, the `get` handler and `JsonResponse` (feed/views.py:47-67) are not modelled. This includes the 404 for NotFound and the handler's own `HttpError` catch. A caught `HttpError` inside the resolver returns a response object, which `get` then uses as a channel id because it only tests for `None`. The model keeps that response as the `Failed` result and does not model what `get` does next.
- The API client, `build(...)`, and the `.execute()` calls (feed/views.py:12, 17-23, 30-35, 56-62) are network I/O. Their replies are the function parameters `search` and `lookup`. The request fields `part`, `type` and `fields` are carried as the constants the source passes; their effect on the platform's reply is not modelled.
- The video search of `get` (feed/views.py:56-62), with its 25-result cap and date ordering, is not modelled. The remote API enforces these, and `process_data` does not guarantee them.
- `config('YOUTUBE_API_KEY')` (feed/views.py:11) is environment I/O and is not modelled.
- Text.Lower: only ASCII letters are case-folded. Python's `str.lower` also folds non-ASCII letters.
- FeedViews.HttpError: `content` is the text the f-string renders. The client library gives the body as bytes, which Python renders in its `b'...'` form; that rendering is not modelled. The status is a natural number.
- FeedViews.SearchHit: every hit carries a `channelId`. A channel-kind hit without one raises `KeyError` in the source, which nothing catches. Likewise, every channel record carries a `snippet` and an `id`. In the source a record without `snippet` raises `KeyError` when the loop reaches it, while a missing `id` raises `KeyError` only if that record is the first match, since `item['id']` is read only there; a non-matching record without `id` is skipped. The model does not represent these crashes.
- FeedViews.FindChannelByCustomUrl: the only failure of a platform call it represents is an `HttpError`. Other exceptions from `.execute()` (transport failures, socket timeouts) are not caught by the `except HttpError` at feed/views.py:44 and escape the resolver; `Reply` cannot represent them.
- FeedViews.FindChannelByCustomUrl: a reply always has an `items` list. A reply without `items` makes the source raise `KeyError` at feed/views.py:25 or :37, which nothing catches; the model cannot represent that reply.
- FeedViews.ChannelIds: every search hit has an `id` with a `kind`. A hit without them makes the source raise `KeyError` at feed/views.py:25; the model does not represent this crash.
- FeedViews.ProcessData: every video hit has a `snippet` with a `title` and an `id` with a `videoId`. A hit without one of these makes the source raise `KeyError` at feed/views.py:73 or :75; the model does not represent this crash.
- FeedViews.ProcessData: a hit without a `high` thumbnail raises `KeyError` in the source. The model makes its presence a precondition instead. Every thumbnail also carries a `url`; a `high` thumbnail without one raises `KeyError` at feed/views.py:74, which the model cannot represent. Other thumbnail fields (width, height) are not modelled.
- FeedViews.ChannelsLookupRequest: the round trip needs channel ids without commas. Platform channel ids never contain one.
