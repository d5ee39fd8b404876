/**
 * The catalog's HTTP client, reduced to what the crawler observes: a status
 * (OK or not) and the decoded JSON body of each reply.  The network is a
 * script of replies handed out in request order; every request is logged.
 */
module Http {
  import opened Common

  /** One entry of a channel search: `item["snippet"]["channelId"]`. */
  datatype SearchHit = SearchHit(channelId: string)

  /** A search reply; `items` is `None` when the JSON body has no "items" key. */
  datatype SearchResponse = SearchResponse(ok: bool, items: Option<seq<SearchHit>>)

  /** The snippet of one playlist item; `thumbnails` maps a size tier to its url. */
  datatype Snippet = Snippet(
    channelId: string,
    videoOwnerChannelTitle: string,
    title: string,
    description: string,
    thumbnails: Option<map<string, string>>,
    publishedAt: string)

  /** One playlist item: its snippet and `contentDetails.videoId`. */
  datatype PlaylistItem = PlaylistItem(snippet: Snippet, videoId: string)

  /** One page of a playlist listing with its optional `nextPageToken` cursor. */
  datatype PlaylistPage = PlaylistPage(ok: bool, items: seq<PlaylistItem>, nextPageToken: Option<string>)

  /** What the client was asked for (the query string beyond these parameters is not modelled). */
  datatype Request =
    | SearchRequest(q: string, maxResults: int)
    | PlaylistItemsRequest(playlistId: string, pageToken: Option<string>)

  /** The reply a request beyond the end of the script receives: a reply with a non-OK status. */
  const Unavailable: PlaylistPage := PlaylistPage(false, [], None)
  const SearchUnavailable: SearchResponse := SearchResponse(false, None)

  /** The reply the next request receives from `script`, or `none` once the script is used up. */
  function NextReply<T>(script: seq<T>, none: T): T {
    if script == [] then none else script[0]
  }

  /** The script left after one request. */
  function AfterReply<T>(script: seq<T>): seq<T> {
    if script == [] then [] else script[1..]
  }

  /** An asynchronous HTTP client whose replies are scripted. */
  class Transport {
    var searchReplies: seq<SearchResponse>
    var pageReplies: seq<PlaylistPage>
    var requests: seq<Request>
    var closed: bool

    constructor (searchReplies: seq<SearchResponse>, pageReplies: seq<PlaylistPage>)
      ensures this.searchReplies == searchReplies && this.pageReplies == pageReplies
      ensures requests == [] && !closed
    {
      this.searchReplies := searchReplies;
      this.pageReplies := pageReplies;
      requests := [];
      closed := false;
    }

    /** GET /search: consumes the next scripted search reply. */
    method Search(q: string, maxResults: int) returns (r: SearchResponse)
      modifies this
      ensures requests == old(requests) + [SearchRequest(q, maxResults)]
      ensures r == NextReply(old(searchReplies), SearchUnavailable) && searchReplies == AfterReply(old(searchReplies))
      ensures pageReplies == old(pageReplies) && closed == old(closed)
    {
      requests := requests + [SearchRequest(q, maxResults)];
      if searchReplies == [] {
        r := SearchUnavailable;
      } else {
        r := searchReplies[0];
        searchReplies := searchReplies[1..];
      }
    }

    /** GET /playlistItems: consumes the next scripted page. */
    method FetchPage(playlistId: string, pageToken: Option<string>) returns (r: PlaylistPage)
      modifies this
      ensures requests == old(requests) + [PlaylistItemsRequest(playlistId, pageToken)]
      ensures r == NextReply(old(pageReplies), Unavailable) && pageReplies == AfterReply(old(pageReplies))
      ensures searchReplies == old(searchReplies) && closed == old(closed)
    {
      requests := requests + [PlaylistItemsRequest(playlistId, pageToken)];
      if pageReplies == [] {
        r := Unavailable;
      } else {
        r := pageReplies[0];
        pageReplies := pageReplies[1..];
      }
    }

    /** `aclose()`: releases the connection pool. */
    method Close()
      modifies this
      ensures closed
      ensures requests == old(requests) && searchReplies == old(searchReplies) && pageReplies == old(pageReplies)
    {
      closed := true;
    }
  }
}
