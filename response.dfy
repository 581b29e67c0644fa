/**
 * The paginated responses of the pixiv app API client (pixiv/response.go) and
 * their one piece of behaviour, the cursor-pagination step `Next*`.
 *
 * Every list response holds a page of items, an opaque `next_url` cursor and a
 * back-reference to the client that fetched it. Advancing fails at once with
 * the sentinel `EmptyNextURL` when the cursor is empty; otherwise it allocates
 * a fresh response bound to the same client, asks the client to fill it from
 * the cursor with no extra parameters, and returns either the client's error,
 * unchanged, or the new page.
 */
module Response {
  import opened Wrappers

  // ---------------------------------------------------------------------------
  // Errors
  // ---------------------------------------------------------------------------

  /**
   * An error reported by the client's `get`: an error response of the app API
   * (`ErrAppAPI`, its decoded `error` object and the HTTP status), or any other
   * failure of the request or of decoding its body.
   */
  datatype FetchError =
    | AppAPIError(status: int, message: string, reason: string, userMessage: string)
    | TransportError(reason: string)

  /**
   * The error a `Next*` method returns: the sentinel `ErrEmptyNextURL`, or the
   * client's error passed through as it is. The sentinel is a constructor of
   * its own, so no fetch error can ever be mistaken for it.
   */
  datatype Error = EmptyNextURL | Fetch(cause: FetchError)

  // ---------------------------------------------------------------------------
  // Items (plain JSON records; their fields are not part of this model)
  // ---------------------------------------------------------------------------

  datatype Comment = Comment(id: int)
  datatype Novel = Novel(id: int)
  datatype Illust = Illust(id: int)
  datatype User = User(id: int)

  /** A user together with their latest illusts and novels. */
  datatype UserPreview = UserPreview(user: User, illusts: seq<Illust>, novels: seq<Novel>, isMuted: bool)

  // ---------------------------------------------------------------------------
  // The remote service, as the client sees it
  // ---------------------------------------------------------------------------

  /** Extra query parameters of a request (Go's `url.Values`); `None` is `nil`. */
  type Params = map<string, seq<string>>

  /** One call of the client's `get`: the URL and the extra parameters. */
  datatype Request = Request(url: string, params: Option<Params>)

  /** The decoded JSON fields of one page of a list response. */
  datatype PageData<T> = PageData(items: seq<T>, nextURL: string, ranking: seq<T>, searchSpanLimit: int)

  /** What the service answers to a request: a decoded page, or an error. */
  datatype Reply<T> = Delivered(data: PageData<T>) | Failed(error: FetchError)

  /**
   * The remote service, seen through the client: any answer to any request.
   * Nothing constrains it.
   */
  type Server<T> = Request -> Reply<T>

  /** The fields of a freshly allocated response: Go's zero values. */
  function ZeroPage<T>(): PageData<T>
  {
    PageData([], "", [], 0)
  }

  // ---------------------------------------------------------------------------
  // The pagination step, on values
  // ---------------------------------------------------------------------------

  /** The request a response in state `p` is continued with: its cursor, verbatim, and no parameters. */
  function Continuation<T>(p: PageData<T>): Request
  {
    Request(p.nextURL, None)
  }

  /**
   * The requests one pagination step from `p` sends: none at all when the
   * cursor is empty, otherwise exactly one, the continuation.
   */
  function Requests<T>(p: PageData<T>): (rs: seq<Request>)
    ensures |rs| <= 1
    ensures rs == [] <==> p.nextURL == ""
    ensures forall i | 0 <= i < |rs| :: rs[i].url == p.nextURL && rs[i].params == None
  {
    if p.nextURL == "" then [] else [Continuation(p)]
  }

  /**
   * The outcome of one pagination step from a response in state `p`, given
   * how the service answers.
   */
  function Advance<T>(p: PageData<T>, server: Server<T>): (r: Result<PageData<T>, Error>)
    // the sentinel comes back exactly when the cursor is empty
    ensures r == Failure(EmptyNextURL) <==> p.nextURL == ""
    // a page comes back exactly when the cursor is set and the service delivers one for it
    ensures r.Success? <==> p.nextURL != "" && server(Continuation(p)).Delivered?
    // and it is the delivered page itself, cursor included
    ensures r.Success? ==> server(Continuation(p)) == Delivered(r.value)
    // a fetch error is the service's own error, not wrapped or replaced
    ensures r.Failure? && r.error.Fetch? ==> server(Continuation(p)) == Failed(r.error.cause)
  {
    if p.nextURL == "" then
      Failure(EmptyNextURL)
    else
      match server(Continuation(p))
      case Failed(e) => Failure(Fetch(e))
      case Delivered(d) => Success(d)
  }

  // ---------------------------------------------------------------------------
  // The client and the responses, on the heap
  // ---------------------------------------------------------------------------

  /**
   * The app API client (`AppAPI`) as far as pagination uses it: its `get`,
   * which sends a request and decodes the answer into a response in place.
   * The ghost `log` records every request `get` has sent, in order.
   */
  class AppAPI<T> {
    const server: Server<T>
    ghost var log: seq<Request>

    constructor (server: Server<T>)
      ensures this.server == server && log == []
    {
      this.server := server;
      log := [];
    }

    /**
     * Sends one request for `url` with `params` and, when the service delivers
     * a page, decodes it into `target`'s JSON fields. The decoder never touches
     * `target.api`, an unexported field.
     */
    method Get(target: Page<T>, url: string, params: Option<Params>) returns (err: Option<FetchError>)
      modifies this`log, target`items, target`nextURL, target`ranking, target`searchSpanLimit
      ensures log == old(log) + [Request(url, params)]
      ensures server(Request(url, params)).Failed? ==> err == Some(server(Request(url, params)).error)
      ensures server(Request(url, params)).Delivered? ==>
                err == None && target.Data() == server(Request(url, params)).data
    {
      log := log + [Request(url, params)];
      match server(Request(url, params))
      case Failed(e) =>
        err := Some(e);
      case Delivered(d) =>
        target.items, target.nextURL := d.items, d.nextURL;
        target.ranking, target.searchSpanLimit := d.ranking, d.searchSpanLimit;
        err := None;
    }
  }

  /**
   * A list response: a page of items, the `next_url` cursor (empty when there
   * are no further pages), and the client it came from. `ranking` and
   * `searchSpanLimit` are the `ranking_*` list and `search_span_limit` of the
   * novel and illust responses: carried data that pagination never looks at.
   */
  class Page<T> {
    var items: seq<T>
    var nextURL: string
    var ranking: seq<T>
    var searchSpanLimit: int
    var api: AppAPI?<T>

    /** The response's JSON fields as one value. */
    function Data(): PageData<T>
      reads this
    {
      PageData(items, nextURL, ranking, searchSpanLimit)
    }

    /** `&Resp…{api: api}`: an empty response bound to `api`. */
    constructor (api: AppAPI?<T>)
      ensures this.api == api && Data() == ZeroPage()
    {
      items, nextURL, ranking, searchSpanLimit := [], "", [], 0;
      this.api := api;
    }

    /**
     * Fetches the page `nextURL` points to, or fails with `EmptyNextURL`.
     * A response with a cursor but no client cannot be advanced: in the
     * source that dereferences a nil client.
     */
    method Next() returns (rn: Page?<T>, err: Option<Error>)
      requires nextURL != "" ==> api != null
      modifies api
      ensures Stepped(this, rn, err)
    {
      if nextURL == "" {
        return null, Some(EmptyNextURL);
      }
      rn := new Page(api);
      var e := api.Get(rn, nextURL, None);
      if e.Some? {
        return null, Some(Fetch(e.value));
      }
      return rn, None;
    }
  }

  /**
   * What one pagination step on `r` did, returning the pair (`rn`, `err`):
   * - `r` itself is left exactly as it was;
   * - exactly one of `rn` and `err` is set, as in Go's (page, error) pair;
   * - a returned page is a new object, bound to the same client as `r`;
   * - the client sent the requests `Requests` names, that is none when the
   *   cursor was empty and otherwise one, for the cursor verbatim and no
   *   parameters, and nothing else of the client changed;
   * - the pair is the outcome `Advance` gives for `r`'s fields and the
   *   service: the sentinel, the client's own error, or the delivered page.
   */
  twostate predicate Stepped<T>(r: Page<T>, new rn: Page?<T>, new err: Option<Error>)
    reads r, r.api, rn
  {
    && unchanged(r)
    && (rn == null <==> err.Some?)
    && (rn != null ==> fresh(rn) && rn.api == r.api)
    && (r.api == null ==> rn == null && err == Some(EmptyNextURL))
    && (r.api != null ==>
          && r.api.log == old(r.api.log) + Requests(old(r.Data()))
          && match Advance(old(r.Data()), r.api.server)
             case Success(d) => rn != null && rn.Data() == d
             case Failure(e) => err == Some(e))
  }

  // ---------------------------------------------------------------------------
  // The four paginated responses of the app API
  // ---------------------------------------------------------------------------

  /** The comments of an illust or novel, or the replies to a comment. */
  type RespComments = Page<Comment>
  /** A user's novels or novel bookmarks. */
  type RespNovels = Page<Novel>
  /** Illust feeds, a user's illusts, new illusts. */
  type RespIllusts = Page<Illust>
  /** The users a user follows. */
  type RespUserPreviews = Page<UserPreview>

  method NextComments(r: RespComments) returns (rn: Page?<Comment>, err: Option<Error>)
    requires r.nextURL != "" ==> r.api != null
    modifies r.api
    ensures Stepped(r, rn, err)
  {
    rn, err := r.Next();
  }

  method NextNovels(r: RespNovels) returns (rn: Page?<Novel>, err: Option<Error>)
    requires r.nextURL != "" ==> r.api != null
    modifies r.api
    ensures Stepped(r, rn, err)
  {
    rn, err := r.Next();
  }

  method NextIllusts(r: RespIllusts) returns (rn: Page?<Illust>, err: Option<Error>)
    requires r.nextURL != "" ==> r.api != null
    modifies r.api
    ensures Stepped(r, rn, err)
  {
    rn, err := r.Next();
  }

  method NextFollowing(r: RespUserPreviews) returns (rn: Page?<UserPreview>, err: Option<Error>)
    requires r.nextURL != "" ==> r.api != null
    modifies r.api
    ensures Stepped(r, rn, err)
  {
    rn, err := r.Next();
  }
}
