/**
 * The catalog crawler (`YoutubeAPIParser`): channel discovery and the
 * cursor-linked walk over a channel's uploads playlist.
 *
 * The pure part (thumbnail choice, the type-prefix strip, which pages a walk
 * reads) is stated as functions; the class `Parser` keeps the crawler's
 * mutable fields (`client`, the channel-id `queue`) and its methods are
 * proved against those functions.
 */
module Catalog {
  import opened Common
  import opened Records
  import opened Http

  // ---------------------------------------------------------------------------
  // Thumbnail choice
  // ---------------------------------------------------------------------------

  /** Thumbnail size tiers in order of preference, best first. */
  const Tiers: seq<string> := ["maxres", "high", "medium"]

  /**
   * The url of the best tier present; an absent "thumbnails" key behaves as an
   * empty one.  A tier is never chosen while a better one is present.
   */
  function PickThumbnail(thumbnails: Option<map<string, string>>): (r: Option<string>)
    ensures var t := thumbnails.GetOr(map[]);
      r.Some? <==> exists i :: 0 <= i < |Tiers| && Tiers[i] in t
    ensures var t := thumbnails.GetOr(map[]);
      r.Some? ==> (exists i :: 0 <= i < |Tiers| && Tiers[i] in t && r.value == t[Tiers[i]] && (forall j :: 0 <= j < i ==> Tiers[j] !in t))
  {
    var t := thumbnails.GetOr(map[]);
    assert |Tiers| == 3 && Tiers[0] == "maxres" && Tiers[1] == "high" && Tiers[2] == "medium";
    if "maxres" in t then Some(t["maxres"])
    else if "high" in t then Some(t["high"])
    else if "medium" in t then Some(t["medium"])
    else None
  }

  // ---------------------------------------------------------------------------
  // Channel discovery
  // ---------------------------------------------------------------------------

  /**
   * A channel id without its two-letter type prefix (Python's `s[2:]`, which
   * is empty for a string shorter than two characters).
   */
  function StripPrefix(s: string): (r: string)
    ensures |s| >= 2 ==> s[..2] + r == s
    ensures |s| < 2 ==> r == []
  {
    if |s| >= 2 then s[2..] else []
  }

  /** The type prefix is dropped whatever it is: "UCabc123" becomes "abc123". */
  lemma StripTypePrefix(prefix: string, id: string)
    requires |prefix| == 2
    ensures StripPrefix(prefix + id) == id
  {
  }

  /** The stripped ids of search hits, in response order. */
  function StripAll(hits: seq<SearchHit>): (r: seq<string>)
    ensures |r| == |hits|
    ensures forall i :: 0 <= i < |hits| ==> r[i] == StripPrefix(hits[i].channelId)
  {
    if hits == [] then [] else StripAll(hits[..|hits| - 1]) + [StripPrefix(hits[|hits| - 1].channelId)]
  }

  /** The ids one search reply adds to the queue: none unless it is OK; none when it has no "items". */
  function Discovered(response: SearchResponse): seq<string> {
    if response.ok then StripAll(response.items.GetOr([])) else []
  }

  // ---------------------------------------------------------------------------
  // Playlist items and the pagination walk
  // ---------------------------------------------------------------------------

  /** The record built from one playlist item. */
  function ParseVideo(item: PlaylistItem): (v: VideoData)
    ensures v.id == item.videoId && v.channelId == item.snippet.channelId
    ensures v.channelTitle == item.snippet.videoOwnerChannelTitle
    ensures v.title == item.snippet.title && v.description == item.snippet.description
    ensures v.thumbnail == PickThumbnail(item.snippet.thumbnails) && v.createdAt == item.snippet.publishedAt
  {
    VideoData(
      channelId := item.snippet.channelId,
      channelTitle := item.snippet.videoOwnerChannelTitle,
      id := item.videoId,
      title := item.snippet.title,
      description := item.snippet.description,
      thumbnail := PickThumbnail(item.snippet.thumbnails),
      createdAt := item.snippet.publishedAt)
  }

  /** One record per item of a page, in item order. */
  function ParseAll(items: seq<PlaylistItem>): (r: seq<VideoData>)
    ensures |r| == |items|
    ensures forall i :: 0 <= i < |items| ==> r[i] == ParseVideo(items[i])
  {
    if items == [] then [] else ParseAll(items[..|items| - 1]) + [ParseVideo(items[|items| - 1])]
  }

  /** The records of the first `k` pages of `S`, page after page. */
  function RecordsUpTo(S: seq<PlaylistPage>, k: nat): seq<VideoData>
    requires k <= |S|
  {
    if k == 0 then [] else RecordsUpTo(S, k - 1) + ParseAll(S[k - 1].items)
  }

  /** The records of the first `k` pages depend on those pages only. */
  lemma {:induction false} RecordsUpToPrefix(S: seq<PlaylistPage>, T: seq<PlaylistPage>, k: nat)
    requires k <= |S|
    ensures RecordsUpTo(S + T, k) == RecordsUpTo(S, k)
  {
    if k > 0 {
      assert (S + T)[k - 1] == S[k - 1];
      RecordsUpToPrefix(S, T, k - 1);
    }
  }

  /**
   * Whether a walk that has just read the OK page `S[j]` reads `S[j + 1]`
   * too: the page has a cursor and the reply to the next request is OK
   * (a request beyond the script gets a failing reply).
   */
  predicate Continues(S: seq<PlaylistPage>, j: nat)
    requires j < |S|
  {
    S[j].nextPageToken.Some? && j + 1 < |S| && S[j + 1].ok
  }

  /** How many pages a walk has read in all once it has read the OK page `S[j]`. */
  function WalkFrom(S: seq<PlaylistPage>, j: nat): (m: nat)
    requires j < |S| && S[j].ok
    ensures j < m <= |S|
    decreases |S| - j
  {
    if Continues(S, j) then WalkFrom(S, j + 1) else j + 1
  }

  /** How many pages (all of them OK) a walk over the reply script `S` collects items from. */
  function PagesWalked(S: seq<PlaylistPage>): (m: nat)
    ensures m <= |S|
  {
    if S == [] || !S[0].ok then 0 else WalkFrom(S, 0)
  }

  /** The videos a walk over the reply script `S` returns. */
  function ExpectedVideos(S: seq<PlaylistPage>): seq<VideoData> {
    RecordsUpTo(S, PagesWalked(S))
  }

  /** How many requests a walk over `S` issues: one more than it reads pages when it stops on a failing reply. */
  function RequestsIssued(S: seq<PlaylistPage>): (n: nat)
    ensures 1 <= n <= |S| + 1
  {
    var m := PagesWalked(S);
    if m == 0 then 1 else if S[m - 1].nextPageToken.Some? then m + 1 else m
  }

  /** Request `j` of a walk: the first has no cursor, each later one carries the previous page's cursor. */
  function PageRequest(playlistId: string, S: seq<PlaylistPage>, j: nat): Request
    requires j <= |S|
  {
    PlaylistItemsRequest(playlistId, if j == 0 then None else S[j - 1].nextPageToken)
  }

  /** The request log `before`, extended by the first `n` requests of a walk. */
  function WalkLog(before: seq<Request>, playlistId: string, S: seq<PlaylistPage>, n: nat): (log: seq<Request>)
    requires n <= |S| + 1
    ensures |log| == |before| + n
    ensures forall j :: 0 <= j < |before| ==> log[j] == before[j]
    ensures n > 0 ==> log[|before|] == PlaylistItemsRequest(playlistId, None)
    ensures forall j :: 0 <= j < n ==> log[|before| + j] == PageRequest(playlistId, S, j)
  {
    if n == 0 then before else WalkLog(before, playlistId, S, n - 1) + [PageRequest(playlistId, S, n - 1)]
  }

  /**
   * An independent description of where a walk stops: the first `m` pages are
   * OK and each but the last leads on to the next, and the `m`-th page (or the
   * first, when `m` is 0) does not lead on.
   */
  ghost predicate IsStopIndex(S: seq<PlaylistPage>, m: nat) {
    m <= |S| &&
    (forall j :: 0 <= j < m ==> S[j].ok) &&
    (forall j :: 0 <= j < m - 1 ==> Continues(S, j)) &&
    (m == 0 ==> S == [] || !S[0].ok) &&
    (m > 0 ==> !Continues(S, m - 1))
  }

  lemma {:induction false} WalkFromStops(S: seq<PlaylistPage>, j: nat)
    requires j < |S| && S[j].ok
    requires forall i :: 0 <= i < j ==> S[i].ok
    requires forall i :: 0 <= i < j ==> Continues(S, i)
    ensures IsStopIndex(S, WalkFrom(S, j))
    decreases |S| - j
  {
    if Continues(S, j) {
      WalkFromStops(S, j + 1);
    }
  }

  /** A walk that has read the OK pages `S[..k + 1]`, each leading on to the next, and stops after `S[k]`. */
  lemma WalkStopsAfter(S: seq<PlaylistPage>, k: nat)
    requires k < |S|
    requires forall j :: 0 <= j <= k ==> S[j].ok
    requires forall j :: 0 <= j < k ==> Continues(S, j)
    requires !Continues(S, k)
    ensures PagesWalked(S) == k + 1
    ensures ExpectedVideos(S) == RecordsUpTo(S, k + 1)
    ensures RequestsIssued(S) == if S[k].nextPageToken.Some? then k + 2 else k + 1
  {
    PagesWalkedIsStopIndex(S, k + 1);
  }

  /** Two stop indices of one script are the same. */
  lemma StopIndexUnique(S: seq<PlaylistPage>, m1: nat, m2: nat)
    requires IsStopIndex(S, m1) && IsStopIndex(S, m2)
    ensures m1 == m2
  {
  }

  /** The walk reads exactly the pages up to the first stop, and no other count satisfies the stop rule. */
  lemma PagesWalkedIsStopIndex(S: seq<PlaylistPage>, m: nat)
    ensures IsStopIndex(S, m) <==> m == PagesWalked(S)
  {
    if S != [] && S[0].ok {
      WalkFromStops(S, 0);
    }
    if IsStopIndex(S, m) {
      StopIndexUnique(S, m, PagesWalked(S));
    }
  }

  /** Replies after the stop are never read: appending more of them changes nothing. */
  lemma WalkIgnoresLaterPages(S: seq<PlaylistPage>, T: seq<PlaylistPage>)
    requires PagesWalked(S) < |S| || (PagesWalked(S) > 0 && S[PagesWalked(S) - 1].nextPageToken.None?)
    ensures PagesWalked(S + T) == PagesWalked(S)
    ensures ExpectedVideos(S + T) == ExpectedVideos(S)
    ensures RequestsIssued(S + T) == RequestsIssued(S)
  {
    var m := PagesWalked(S);
    PagesWalkedIsStopIndex(S, m);
    assert forall j :: 0 <= j < |S| ==> (S + T)[j] == S[j];
    forall j: nat | j + 1 < m
      ensures Continues(S + T, j)
    {
      assert Continues(S, j);
    }
    if m > 0 {
      assert !Continues(S, m - 1);
      assert !Continues(S + T, m - 1);
    }
    assert IsStopIndex(S + T, m);
    PagesWalkedIsStopIndex(S + T, m);
    RecordsUpToPrefix(S, T, m);
  }

  /** A walk whose first reply fails returns nothing after one request. */
  lemma FirstPageFails(S: seq<PlaylistPage>)
    requires S == [] || !S[0].ok
    ensures ExpectedVideos(S) == [] && RequestsIssued(S) == 1
  {
  }

  /** Three OK pages linked by two cursors, the last without one: all three pages' items, in order. */
  lemma ThreeLinkedPages(p1: PlaylistPage, p2: PlaylistPage, p3: PlaylistPage, later: seq<PlaylistPage>)
    requires p1.ok && p2.ok && p3.ok
    requires p1.nextPageToken.Some? && p2.nextPageToken.Some? && p3.nextPageToken.None?
    ensures ExpectedVideos([p1, p2, p3] + later) == ParseAll(p1.items) + ParseAll(p2.items) + ParseAll(p3.items)
    ensures RequestsIssued([p1, p2, p3] + later) == 3
  {
    var S := [p1, p2, p3] + later;
    assert IsStopIndex(S, 3);
    PagesWalkedIsStopIndex(S, 3);
    assert S[0] == p1 && S[1] == p2 && S[2] == p3;
    assert RecordsUpTo(S, 1) == ParseAll(p1.items);
    assert RecordsUpTo(S, 2) == ParseAll(p1.items) + ParseAll(p2.items);
  }

  /** A failing second reply: only the first page's items, after two requests. */
  lemma SecondPageFails(p1: PlaylistPage, p2: PlaylistPage, later: seq<PlaylistPage>)
    requires p1.ok && p1.nextPageToken.Some? && !p2.ok
    ensures ExpectedVideos([p1, p2] + later) == ParseAll(p1.items)
    ensures RequestsIssued([p1, p2] + later) == 2
  {
    var S := [p1, p2] + later;
    assert IsStopIndex(S, 1);
    PagesWalkedIsStopIndex(S, 1);
    assert RecordsUpTo(S, 1) == ParseAll(p1.items);
  }

  /** The body of a page's item loop: one record appended per item, in item order. */
  method AppendRecords(results: seq<VideoData>, items: seq<PlaylistItem>) returns (out: seq<VideoData>)
    ensures out == results + ParseAll(items)
  {
    out := results;
    for i := 0 to |items|
      invariant out == results + ParseAll(items[..i])
    {
      assert items[..i + 1][..i] == items[..i];
      out := out + [ParseVideo(items[i])];
    }
    assert items[..|items|] == items;
  }

  /** The reply to the request that follows page `S[k]`, and the script left after it. */
  lemma NextPageReply(S: seq<PlaylistPage>, k: nat)
    requires k < |S|
    ensures NextReply(S[k + 1..], Unavailable).ok <==> k + 1 < |S| && S[k + 1].ok
    ensures k + 1 < |S| ==> NextReply(S[k + 1..], Unavailable) == S[k + 1] && AfterReply(S[k + 1..]) == S[k + 2..]
    ensures k + 1 == |S| ==> AfterReply(S[k + 1..]) == []
  {
  }

  /** The number of requests a walk has issued when it stops after page `S[k]`. */
  function RequestsAtStop(S: seq<PlaylistPage>, k: nat): nat
    requires k < |S|
  {
    if S[k].nextPageToken.Some? then k + 2 else k + 1
  }

  /**
   * One turn of the `while True` loop of `get_videos`: records the OK page
   * `S[k]`, then follows its cursor if it has one.  `more` is whether the walk
   * goes on, with `next` the page just read.
   */
  method ReadPage(c: Transport, playlistId: string, ghost S: seq<PlaylistPage>, ghost R0: seq<Request>, ghost k: nat,
                  results: seq<VideoData>, page: PlaylistPage)
    returns (results': seq<VideoData>, next: PlaylistPage, more: bool)
    requires k < |S| && page == S[k] && page.ok
    requires c.pageReplies == S[k + 1..]
    requires c.requests == WalkLog(R0, playlistId, S, k + 1)
    requires results == RecordsUpTo(S, k)
    modifies c
    ensures results' == RecordsUpTo(S, k + 1)
    ensures c.searchReplies == old(c.searchReplies)
    ensures more == Continues(S, k)
    ensures more ==> next == S[k + 1] && c.pageReplies == S[k + 2..] && c.requests == WalkLog(R0, playlistId, S, k + 2)
    ensures !more ==>
      var n := RequestsAtStop(S, k);
      c.requests == WalkLog(R0, playlistId, S, n) && c.pageReplies == (if n <= |S| then S[n..] else [])
  {
    results' := AppendRecords(results, page.items);
    var nextPageToken := page.nextPageToken;
    if nextPageToken.None? {
      return results', page, false;
    }
    next := c.FetchPage(playlistId, nextPageToken);
    NextPageReply(S, k);
    more := next.ok;
  }

  /**
   * The body of `get_videos` after the client check: requests the first page
   * of playlist `"UU" + channelId` and, while pages are OK and carry a cursor,
   * the next one.  It returns the records of the pages `PagesWalked` counts.
   */
  method WalkUploads(c: Transport, channelId: string) returns (videos: seq<VideoData>)
    modifies c
    ensures
      var S := old(c.pageReplies);
      var n := RequestsIssued(S);
      videos == ExpectedVideos(S) &&
      c.requests == WalkLog(old(c.requests), "UU" + channelId, S, n) &&
      c.pageReplies == (if n <= |S| then S[n..] else []) &&
      c.searchReplies == old(c.searchReplies)
  {
    ghost var S := c.pageReplies;
    ghost var R0 := c.requests;
    var playlistId := "UU" + channelId;
    var response := c.FetchPage(playlistId, None);
    if !response.ok {
      PagesWalkedIsStopIndex(S, 0);
      return [];
    }
    videos := [];
    var more: bool;
    ghost var k: nat := 0;
    while true
      invariant k < |S| && response == S[k]
      invariant c.pageReplies == S[k + 1..] && c.searchReplies == old(c.searchReplies)
      invariant forall j :: 0 <= j <= k ==> S[j].ok
      invariant forall j :: 0 <= j < k ==> Continues(S, j)
      invariant videos == RecordsUpTo(S, k)
      invariant c.requests == WalkLog(R0, playlistId, S, k + 1)
      decreases |S| - k
    {
      videos, response, more := ReadPage(c, playlistId, S, R0, k, videos, response);
      if !more {
        break;
      }
      k := k + 1;
    }
    WalkStopsAfter(S, k);
  }

  // ---------------------------------------------------------------------------
  // The crawler object
  // ---------------------------------------------------------------------------

  /** The `RuntimeError`s the crawler raises. */
  datatype ParserError =
    | NotEntered                 // an API method called outside `async with`
    | EmptyQuery                 // a search with an empty query
    | NonPositiveCount(count: int)

  /** `YoutubeAPIParser`: an HTTP client that exists only inside `async with`, and the discovered channel ids. */
  class Parser {
    var client: Transport?
    var queue: seq<string>

    constructor ()
      ensures client == null && queue == []
    {
      client := null;
      queue := [];
    }

    /** `__aenter__`: installs a freshly opened client (its construction is I/O). */
    method Enter(t: Transport)
      requires !t.closed
      modifies this
      ensures client == t && queue == old(queue)
    {
      client := t;
    }

    /** `__aexit__`: closes and drops the client; a second call does nothing. */
    method Exit()
      modifies this, client
      ensures client == null && queue == old(queue)
      ensures old(client) != null ==> old(client).closed
      ensures old(client) != null ==> old(client).requests == old(client.requests)
      ensures old(client) == null ==> unchanged(this)
    {
      if client != null {
        client.Close();
        client := null;
      }
    }

    /**
     * `get_new_channels_id`: one search request; the ids of an OK reply are
     * appended to the queue without their type prefix, in reply order.  The
     * argument checks come first (empty query before count), and a failing
     * reply is "nothing found".
     */
    method GetNewChannelsId(q: string, count: int := 50) returns (r: Result<(), ParserError>)
      modifies this, client
      ensures client == old(client)
      ensures old(client) == null ==> r == Raised(NotEntered) && queue == old(queue)
      ensures old(client) != null && |q| == 0 ==>
        r == Raised(EmptyQuery) && queue == old(queue) && unchanged(client)
      ensures old(client) != null && |q| > 0 && count <= 0 ==>
        r == Raised(NonPositiveCount(count)) && queue == old(queue) && unchanged(client)
      ensures old(client) != null && |q| > 0 && count > 0 ==>
        r == Ok(()) &&
        client.requests == old(client.requests) + [SearchRequest(q, count)] &&
        client.searchReplies == AfterReply(old(client.searchReplies)) &&
        client.pageReplies == old(client.pageReplies) &&
        client.closed == old(client.closed) &&
        queue == old(queue) + Discovered(NextReply(old(client.searchReplies), SearchUnavailable))
    {
      if client == null {
        return Raised(NotEntered);
      }
      if |q| == 0 {
        return Raised(EmptyQuery);
      } else if count <= 0 {
        return Raised(NonPositiveCount(count));
      }
      var response := client.Search(q, count);
      if !response.ok {
        return Ok(());
      }
      var hits := response.items.GetOr([]);
      for i := 0 to |hits|
        modifies this
        invariant client == old(client)
        invariant queue == old(queue) + StripAll(hits[..i])
      {
        assert hits[..i + 1][..i] == hits[..i];
        queue := queue + [StripPrefix(hits[i].channelId)];
      }
      assert hits[..|hits|] == hits;
      return Ok(());
    }

    /**
     * `get_videos`: the walk of `WalkUploads` over the uploads playlist of
     * `channelId`, once the client is there.
     */
    method GetVideos(channelId: string) returns (r: Result<seq<VideoData>, ParserError>)
      modifies client
      ensures old(client) == null ==> r == Raised(NotEntered)
      ensures old(client) != null ==>
        var S := old(client.pageReplies);
        var n := RequestsIssued(S);
        r == Ok(ExpectedVideos(S)) &&
        client.requests == WalkLog(old(client.requests), "UU" + channelId, S, n) &&
        client.pageReplies == (if n <= |S| then S[n..] else []) &&
        client.searchReplies == old(client.searchReplies)
    {
      if client == null {
        return Raised(NotEntered);
      }
      var videos := WalkUploads(client, channelId);
      return Ok(videos);
    }
  }
}
