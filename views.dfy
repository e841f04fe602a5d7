/** The data handling of the YouTubeUserVideos view (feed/views.py):
    resolving a channel from its custom URL, and projecting the video
    search hits of that channel into display records.

    The two platform calls of the resolver are parameters: each is a
    function from the request the view builds to the reply the platform
    gives, which is either the list of items or a raised HttpError. */
module FeedViews {
  import opened Text

  datatype Option<T> = None | Some(value: T)

  const ChannelKind := "youtube#channel"
  const DefaultMaxResults := 10
  /** The HTTP status of the response built for a caught HttpError. */
  const BadRequest := 400
  const HttpErrorPrefix := "An HTTP error "
  const HttpErrorInfix := " occurred: "
  const WatchUrlPrefix := "https://www.youtube.com/watch?v="
  const HighThumbnail := "high"

  // ---------------------------------------------------------------------
  // Platform data
  // ---------------------------------------------------------------------

  /** An HttpError raised by the API client: the reply's status code and
      its body, as the text the f-string renders it to. */
  datatype HttpError = HttpError(status: nat, content: string)

  /** What `.execute()` gives back: the `items` of the reply, or an error. */
  datatype Reply<T> = Ok(items: T) | Raised(error: HttpError)

  /** A search hit as requested by `fields='items(id(kind,channelId))'`. */
  datatype SearchHit = SearchHit(kind: string, channelId: string)

  /** A channel record as requested by `fields='items(id,snippet(customUrl))'`;
      the custom URL is absent from some snippets. */
  datatype ChannelRecord = ChannelRecord(id: string, customUrl: Option<string>)

  datatype SearchRequest = SearchRequest(q: string, part: string, resultType: string, fields: string, maxResults: nat)

  datatype ChannelsRequest = ChannelsRequest(id: string, part: string, fields: string, maxResults: nat)

  /** The JSON error response: its HTTP status and its "error" text. */
  datatype ErrorResponse = ErrorResponse(status: nat, error: string)

  /** What find_channel_by_custom_url returns: a channel id, None, or the
      error response built from a caught HttpError. (The view's `get`
      then treats that error response as if it were a channel id, since it
      only tests for None; the handler is not part of this model.) */
  datatype Resolution = Found(channelId: string) | NotFound | Failed(response: ErrorResponse)

  // ---------------------------------------------------------------------
  // Channel resolver
  // ---------------------------------------------------------------------

  /** The channel search issued first, with the caller's query and limit. */
  function ChannelSearchRequest(customUrl: string, maxResults: nat): (r: SearchRequest)
    ensures r.q == customUrl && r.resultType == "channel" && r.maxResults == maxResults
  {
    SearchRequest(customUrl, "id", "channel", "items(id(kind,channelId))", maxResults)
  }

  /** The ids of the channel-kind hits. */
  function ChannelIds(hits: seq<SearchHit>): (ids: seq<string>)
    ensures |ids| <= |hits|
    ensures ids == [] <==> forall i :: 0 <= i < |hits| ==> hits[i].kind != ChannelKind
    ensures forall i :: 0 <= i < |hits| && hits[i].kind == ChannelKind ==> hits[i].channelId in ids
    decreases |hits|
  {
    if |hits| == 0 then []
    else (if hits[0].kind == ChannelKind then [hits[0].channelId] else []) + ChannelIds(hits[1..])
  }

  /** The filter works hit by hit: the ids of a concatenation are the ids of
      its first part followed by those of its second part. */
  lemma {:induction false} ChannelIdsAppend(a: seq<SearchHit>, b: seq<SearchHit>)
    ensures ChannelIds(a + b) == ChannelIds(a) + ChannelIds(b)
    decreases |a|
  {
    if |a| == 0 {
      assert a + b == b;
    } else {
      assert (a + b)[1..] == a[1..] + b;
      ChannelIdsAppend(a[1..], b);
    }
  }

  /** A single hit contributes its id when it is a channel, and nothing otherwise. */
  lemma ChannelIdsOfOne(h: SearchHit)
    ensures ChannelIds([h]) == if h.kind == ChannelKind then [h.channelId] else []
  {
  }

  /** Every id kept comes from a channel-kind hit. */
  lemma {:induction false} ChannelIdsFromChannelHits(hits: seq<SearchHit>, id: string)
    requires id in ChannelIds(hits)
    ensures exists i :: 0 <= i < |hits| && hits[i].kind == ChannelKind && hits[i].channelId == id
    decreases |hits|
  {
    if hits[0].kind == ChannelKind && hits[0].channelId == id {
    } else {
      ChannelIdsFromChannelHits(hits[1..], id);
      var i :| 0 <= i < |hits[1..]| && hits[1..][i].kind == ChannelKind && hits[1..][i].channelId == id;
      assert hits[i + 1] == hits[1..][i];
    }
  }

  /** The batched channel lookup: every kept id, comma-joined, and as many
      results as there are ids. For a non-empty list of ids (channel ids
      never contain a comma), the `id` argument splits back into exactly
      those ids, in order. */
  function ChannelsLookupRequest(ids: seq<string>): (r: ChannelsRequest)
    ensures r.maxResults == |ids|
    ensures |ids| >= 1 && (forall i :: 0 <= i < |ids| ==> ',' !in ids[i]) ==> Split(r.id, ',') == ids
  {
    var r := ChannelsRequest(Join(ids, ','), "id,snippet", "items(id,snippet(customUrl))", |ids|);
    if |ids| >= 1 && (forall i :: 0 <= i < |ids| ==> ',' !in ids[i]) then (SplitJoin(ids, ','); r) else r
  }

  /** The test of the resolver's loop: the custom URL is present, not empty,
      and equal to the query once both are lower-cased. */
  predicate CustomUrlMatches(rec: ChannelRecord, query: string)
    ensures CustomUrlMatches(rec, query)
        <==> && rec.customUrl.Some?
             && rec.customUrl.value != ""
             && |rec.customUrl.value| == |query|
             && forall i :: 0 <= i < |query| ==> SameLetterIgnoringCase(rec.customUrl.value[i], query[i])
  {
    match rec.customUrl
    case None => false
    case Some(url) =>
      EqualIgnoringCaseCharwise(url, query);
      url != "" && Lower(url) == Lower(query)
  }

  /** The position of the first record that matches, if any. */
  function FirstMatch(records: seq<ChannelRecord>, query: string): (r: Option<nat>)
    ensures r.Some? ==> r.value < |records| && CustomUrlMatches(records[r.value], query)
    ensures r.Some? ==> forall j :: 0 <= j < r.value ==> !CustomUrlMatches(records[j], query)
    ensures r.None? <==> forall j :: 0 <= j < |records| ==> !CustomUrlMatches(records[j], query)
    decreases |records|
  {
    if |records| == 0 then None
    else if CustomUrlMatches(records[0], query) then Some(0)
    else
      match FirstMatch(records[1..], query)
      case None => None
      case Some(j) => Some(j + 1)
  }

  /** A record without a custom URL, or with an empty one, never matches. */
  lemma BlankCustomUrlNeverMatches(rec: ChannelRecord, query: string)
    requires rec.customUrl.None? || rec.customUrl.value == ""
    ensures !CustomUrlMatches(rec, query)
  {
  }

  /** Two queries that differ only in case match the same records. */
  lemma FirstMatchIgnoresQueryCase(records: seq<ChannelRecord>, q1: string, q2: string)
    requires EqualIgnoringCase(q1, q2)
    ensures FirstMatch(records, q1) == FirstMatch(records, q2)
  {
  }

  /** Two records are alike up to case when they have the same id and custom
      URLs that are both absent or both present and equal ignoring case. */
  predicate SameUpToCase(a: ChannelRecord, b: ChannelRecord)
  {
    a.id == b.id &&
    match a.customUrl
    case None => b.customUrl.None?
    case Some(u) => b.customUrl.Some? && EqualIgnoringCase(u, b.customUrl.value)
  }

  /** Changing the case of stored custom URLs changes neither which record
      matches first nor whether any does. */
  lemma FirstMatchIgnoresStoredCase(rs1: seq<ChannelRecord>, rs2: seq<ChannelRecord>, query: string)
    requires |rs1| == |rs2|
    requires forall i :: 0 <= i < |rs1| ==> SameUpToCase(rs1[i], rs2[i])
    ensures FirstMatch(rs1, query) == FirstMatch(rs2, query)
  {
  }

  /** The "error" text of the response built for a caught HttpError. It
      carries the status and the body without loss. */
  function HttpErrorMessage(e: HttpError): (m: string)
    ensures HttpErrorPrefix <= m
    ensures ParseHttpErrorMessage(m) == Some(e)
  {
    HttpErrorMessageRoundTrip(e.status, e.content);
    HttpErrorPrefix + Decimal(e.status) + HttpErrorInfix + e.content
  }

  /** Reads an HttpError back out of an "error" text, if it has that form;
      the status must be written as Python writes an int, without leading zeros. */
  function ParseHttpErrorMessage(m: string): Option<HttpError>
  {
    if !(HttpErrorPrefix <= m) then None
    else
      var rest := m[|HttpErrorPrefix|..];
      var k := LeadingDigits(rest);
      if k == 0 || (k > 1 && rest[0] == '0') then None
      else
        var after := rest[k..];
        if !(HttpErrorInfix <= after) then None
        else Some(HttpError(DecimalValue(rest[..k]), after[|HttpErrorInfix|..]))
  }

  /** Reading the error template back gives the status and the body it was filled with. */
  lemma HttpErrorMessageRoundTrip(status: nat, content: string)
    ensures ParseHttpErrorMessage(HttpErrorPrefix + Decimal(status) + HttpErrorInfix + content)
         == Some(HttpError(status, content))
  {
    var d := Decimal(status);
    var m := HttpErrorPrefix + d + HttpErrorInfix + content;
    var tail := HttpErrorInfix + content;
    var rest := m[|HttpErrorPrefix|..];
    assert rest == d + tail;
    LeadingDigitsOfDigitRun(d, tail);
    assert rest[..|d|] == d;
    assert rest[|d|..] == tail;
    DecimalRoundTrip(status);
  }

  /** A text the parser accepts is exactly the template filled with what it
      reads: so an "error" text that reads back to an HttpError is that
      error's text, character for character. */
  lemma ParsedMessageIsTemplate(m: string)
    requires ParseHttpErrorMessage(m).Some?
    ensures var e := ParseHttpErrorMessage(m).value;
      m == HttpErrorPrefix + Decimal(e.status) + HttpErrorInfix + e.content
  {
    var rest := m[|HttpErrorPrefix|..];
    var k := LeadingDigits(rest);
    var after := rest[k..];
    DecimalCanonical(rest[..k]);
    assert rest == rest[..k] + HttpErrorInfix + after[|HttpErrorInfix|..];
    assert m == HttpErrorPrefix + rest;
  }

  /** The response for a caught HttpError: status 400, and an "error" text
      from which the platform's status and body can be read back. */
  function HttpErrorResponse(e: HttpError): (r: ErrorResponse)
    ensures r.status == BadRequest
    ensures HttpErrorPrefix <= r.error
    ensures ParseHttpErrorMessage(r.error) == Some(e)
  {
    ErrorResponse(BadRequest, HttpErrorMessage(e))
  }

  /** find_channel_by_custom_url: search for channels, keep the channel-kind
      hits, look their records up in one batch, and return the id of the
      first record whose custom URL matches. An HttpError from either call
      becomes a 400 error response. */
  function FindChannelByCustomUrl(
    customUrl: string,
    search: SearchRequest -> Reply<seq<SearchHit>>,
    lookup: ChannelsRequest -> Reply<seq<ChannelRecord>>,
    maxResults: nat := DefaultMaxResults): (r: Resolution)
    ensures r.Failed? ==> r.response.status == BadRequest
    ensures r.Failed? <==>
      var s := search(ChannelSearchRequest(customUrl, maxResults));
      s.Raised? || (ChannelIds(s.items) != [] && lookup(ChannelsLookupRequest(ChannelIds(s.items))).Raised?)
  {
    match search(ChannelSearchRequest(customUrl, maxResults))
    case Raised(e) => Failed(HttpErrorResponse(e))
    case Ok(hits) =>
      var ids := ChannelIds(hits);
      if ids == [] then NotFound
      else
        match lookup(ChannelsLookupRequest(ids))
        case Raised(e) => Failed(HttpErrorResponse(e))
        case Ok(records) =>
          match FirstMatch(records, customUrl)
          case Some(i) => Found(records[i].id)
          case None => NotFound
  }

  /** When the search yields no channel-kind hit, the result is NotFound
      whatever the lookup would answer: no lookup takes place. */
  lemma NoChannelHitsMeansNotFound(
    customUrl: string,
    maxResults: nat,
    search: SearchRequest -> Reply<seq<SearchHit>>,
    lookup: ChannelsRequest -> Reply<seq<ChannelRecord>>,
    otherLookup: ChannelsRequest -> Reply<seq<ChannelRecord>>)
    requires search(ChannelSearchRequest(customUrl, maxResults)).Ok?
    requires var hits := search(ChannelSearchRequest(customUrl, maxResults)).items;
      forall i :: 0 <= i < |hits| ==> hits[i].kind != ChannelKind
    ensures FindChannelByCustomUrl(customUrl, search, lookup, maxResults) == NotFound
    ensures FindChannelByCustomUrl(customUrl, search, lookup, maxResults)
         == FindChannelByCustomUrl(customUrl, search, otherLookup, maxResults)
  {
  }

  /** A found id is that of the first record, in the order the lookup
      returned them, whose custom URL matches; the lookup it came from was
      issued for the kept ids. */
  lemma FoundIsFirstMatch(
    customUrl: string,
    maxResults: nat,
    search: SearchRequest -> Reply<seq<SearchHit>>,
    lookup: ChannelsRequest -> Reply<seq<ChannelRecord>>)
    requires FindChannelByCustomUrl(customUrl, search, lookup, maxResults).Found?
    ensures search(ChannelSearchRequest(customUrl, maxResults)).Ok?
    ensures var ids := ChannelIds(search(ChannelSearchRequest(customUrl, maxResults)).items);
      && ids != []
      && lookup(ChannelsLookupRequest(ids)).Ok?
      && var records := lookup(ChannelsLookupRequest(ids)).items;
         exists i :: 0 <= i < |records|
           && records[i].id == FindChannelByCustomUrl(customUrl, search, lookup, maxResults).channelId
           && CustomUrlMatches(records[i], customUrl)
           && forall j :: 0 <= j < i ==> !CustomUrlMatches(records[j], customUrl)
  {
  }

  /** When both calls succeed and record `i` is the first one in the lookup's
      order whose custom URL matches, the result is that record's id. */
  lemma FirstMatchingRecordIsFound(
    customUrl: string,
    maxResults: nat,
    search: SearchRequest -> Reply<seq<SearchHit>>,
    lookup: ChannelsRequest -> Reply<seq<ChannelRecord>>,
    i: nat)
    requires search(ChannelSearchRequest(customUrl, maxResults)).Ok?
    requires ChannelIds(search(ChannelSearchRequest(customUrl, maxResults)).items) != []
    requires lookup(ChannelsLookupRequest(ChannelIds(search(ChannelSearchRequest(customUrl, maxResults)).items))).Ok?
    requires var records := lookup(ChannelsLookupRequest(ChannelIds(search(ChannelSearchRequest(customUrl, maxResults)).items))).items;
      && i < |records|
      && CustomUrlMatches(records[i], customUrl)
      && forall j :: 0 <= j < i ==> !CustomUrlMatches(records[j], customUrl)
    ensures var records := lookup(ChannelsLookupRequest(ChannelIds(search(ChannelSearchRequest(customUrl, maxResults)).items))).items;
      FindChannelByCustomUrl(customUrl, search, lookup, maxResults) == Found(records[i].id)
  {
  }

  /** NotFound comes exactly from a search without channel-kind hits, or
      from a lookup none of whose records matches. */
  lemma NotFoundExactly(
    customUrl: string,
    maxResults: nat,
    search: SearchRequest -> Reply<seq<SearchHit>>,
    lookup: ChannelsRequest -> Reply<seq<ChannelRecord>>)
    ensures FindChannelByCustomUrl(customUrl, search, lookup, maxResults) == NotFound
      <==>
        && search(ChannelSearchRequest(customUrl, maxResults)).Ok?
        && var ids := ChannelIds(search(ChannelSearchRequest(customUrl, maxResults)).items);
           (ids == [] ||
            (lookup(ChannelsLookupRequest(ids)).Ok? &&
             var records := lookup(ChannelsLookupRequest(ids)).items;
             forall j :: 0 <= j < |records| ==> !CustomUrlMatches(records[j], customUrl)))
  {
  }

  /** An HttpError from the search, or from the lookup that follows it,
      gives the 400 response built from that error. */
  lemma HttpErrorsBecomeBadRequest(
    customUrl: string,
    maxResults: nat,
    search: SearchRequest -> Reply<seq<SearchHit>>,
    lookup: ChannelsRequest -> Reply<seq<ChannelRecord>>)
    ensures var s := search(ChannelSearchRequest(customUrl, maxResults));
      s.Raised? ==>
        FindChannelByCustomUrl(customUrl, search, lookup, maxResults)
        == Failed(ErrorResponse(BadRequest, HttpErrorMessage(s.error)))
    ensures var s := search(ChannelSearchRequest(customUrl, maxResults));
      s.Ok? && ChannelIds(s.items) != [] && lookup(ChannelsLookupRequest(ChannelIds(s.items))).Raised? ==>
        FindChannelByCustomUrl(customUrl, search, lookup, maxResults)
        == Failed(ErrorResponse(BadRequest, HttpErrorMessage(lookup(ChannelsLookupRequest(ChannelIds(s.items))).error)))
  {
  }

  /** Changing the case of the query changes nothing, as long as the
      platform's search answers both spellings alike. */
  lemma ResolutionIgnoresQueryCase(
    q1: string,
    q2: string,
    maxResults: nat,
    search: SearchRequest -> Reply<seq<SearchHit>>,
    lookup: ChannelsRequest -> Reply<seq<ChannelRecord>>)
    requires EqualIgnoringCase(q1, q2)
    requires search(ChannelSearchRequest(q1, maxResults)) == search(ChannelSearchRequest(q2, maxResults))
    ensures FindChannelByCustomUrl(q1, search, lookup, maxResults)
         == FindChannelByCustomUrl(q2, search, lookup, maxResults)
  {
  }

  /** A worked case: a playlist hit is dropped, the record without a custom
      URL is skipped, and of two records whose custom URLs differ from the
      query only in case, the one listed first wins. */
  lemma MixedCaseQueryResolvesToFirstListed()
    ensures FindChannelByCustomUrl(
              "MyChannel",
              _ => Ok([SearchHit(ChannelKind, "UCa"), SearchHit("youtube#playlist", "PLx"),
                       SearchHit(ChannelKind, "UCb"), SearchHit(ChannelKind, "UCc")]),
              _ => Ok([ChannelRecord("UCa", None), ChannelRecord("UCb", Some("mychannel")),
                       ChannelRecord("UCc", Some("MYCHANNEL"))]))
         == Found("UCb")
  {
    var hits := [SearchHit(ChannelKind, "UCa"), SearchHit("youtube#playlist", "PLx"),
                 SearchHit(ChannelKind, "UCb"), SearchHit(ChannelKind, "UCc")];
    var records := [ChannelRecord("UCa", None), ChannelRecord("UCb", Some("mychannel")),
                    ChannelRecord("UCc", Some("MYCHANNEL"))];
    var search: SearchRequest -> Reply<seq<SearchHit>> := _ => Ok(hits);
    var lookup: ChannelsRequest -> Reply<seq<ChannelRecord>> := _ => Ok(records);
    assert hits[0].kind == ChannelKind;
    LowerCaseVariantMatches();
    FirstMatchingRecordIsFound("MyChannel", DefaultMaxResults, search, lookup, 1);
  }

  /** Helper for the worked case above: kept apart so that its proof stays small. */
  lemma LowerCaseVariantMatches()
    ensures CustomUrlMatches(ChannelRecord("UCb", Some("mychannel")), "MyChannel")
  {
  }

  // ---------------------------------------------------------------------
  // Projection of video hits
  // ---------------------------------------------------------------------

  datatype Thumbnail = Thumbnail(url: string)

  /** A video search hit: snippet title, snippet thumbnails by size name,
      and the video id. */
  datatype VideoHit = VideoHit(title: string, thumbnails: map<string, Thumbnail>, videoId: string)

  /** The display record sent to the client. */
  datatype VideoSummary = VideoSummary(title: string, thumbnail: string, link: string)

  /** The watch page of a video; the id can be read back from it. */
  function WatchLink(videoId: string): (link: string)
    ensures VideoIdOfLink(link) == Some(videoId)
  {
    WatchUrlPrefix + videoId
  }

  /** The video id a watch link points to, if it is one. */
  function VideoIdOfLink(link: string): Option<string>
  {
    if WatchUrlPrefix <= link then Some(link[|WatchUrlPrefix|..]) else None
  }

  /** Distinct videos get distinct links. */
  lemma WatchLinkInjective(v1: string, v2: string)
    requires WatchLink(v1) == WatchLink(v2)
    ensures v1 == v2
  {
  }

  /** process_data: one record per hit, in the same order; the title as
      given, the url of the "high" thumbnail, and the watch link of the id. */
  function ProcessData(items: seq<VideoHit>): (r: seq<VideoSummary>)
    requires forall i :: 0 <= i < |items| ==> HighThumbnail in items[i].thumbnails
    ensures |r| == |items|
    ensures forall i :: 0 <= i < |items| ==>
      && r[i].title == items[i].title
      && r[i].thumbnail == items[i].thumbnails[HighThumbnail].url
      && VideoIdOfLink(r[i].link) == Some(items[i].videoId)
  {
    seq(|items|, i requires 0 <= i < |items| =>
      VideoSummary(items[i].title, items[i].thumbnails[HighThumbnail].url, WatchLink(items[i].videoId)))
  }

  /** Each hit is projected on its own: the records for a concatenation are
      the records for its first part followed by those for its second. */
  lemma ProcessDataAppend(a: seq<VideoHit>, b: seq<VideoHit>)
    requires forall i :: 0 <= i < |a| ==> HighThumbnail in a[i].thumbnails
    requires forall i :: 0 <= i < |b| ==> HighThumbnail in b[i].thumbnails
    ensures forall i :: 0 <= i < |a + b| ==> HighThumbnail in (a + b)[i].thumbnails
    ensures ProcessData(a + b) == ProcessData(a) + ProcessData(b)
  {
  }
}
