/**
 * Traversals: a caller that keeps calling `Next*` on the page it was last
 * given. `Walk` is the state of such a caller after k calls; the lemmas say
 * that a traversal visits exactly the pages the service hands out, sends one
 * request per page and no other, ends with the sentinel right after the first
 * page whose cursor is empty, and that a failure, once reached, is final.
 */
module Traversal {
  import opened Wrappers
  import opened Response

  /** Where a traversal stands: the last outcome and every request sent so far. */
  datatype Trace<T> = Trace(outcome: Result<PageData<T>, Error>, requests: seq<Request>)

  /**
   * `k` successive pagination steps from `p`. After a failure the caller holds
   * no new page, so the traversal stops there.
   */
  function Walk<T>(server: Server<T>, p: PageData<T>, k: nat): Trace<T>
  {
    if k == 0 then
      Trace(Success(p), [])
    else
      var t := Walk(server, p, k - 1);
      match t.outcome
      case Failure(_) => t
      case Success(q) => Trace(Advance(q, server), t.requests + Requests(q))
  }

  /** The continuation requests of a sequence of pages, in order. */
  function Cursors<T>(pages: seq<PageData<T>>): seq<Request>
  {
    seq(|pages|, i requires 0 <= i < |pages| => Continuation(pages[i]))
  }

  /**
   * `pages` is a chain the service hands out: each page but the last has a
   * cursor, and the service answers that cursor with the next page.
   */
  ghost predicate IsTraversal<T>(server: Server<T>, pages: seq<PageData<T>>)
  {
    && |pages| > 0
    && forall i | 0 <= i < |pages| - 1 ::
         pages[i].nextURL != "" && server(Continuation(pages[i])) == Delivered(pages[i + 1])
  }

  /** A traversal sends at most one request per step, each with no extra parameters. */
  lemma {:induction false} WalkRequestsBounded<T>(server: Server<T>, p: PageData<T>, k: nat)
    ensures |Walk(server, p, k).requests| <= k
    ensures forall i | 0 <= i < |Walk(server, p, k).requests| :: Walk(server, p, k).requests[i].params == None
  {
    if k > 0 {
      WalkRequestsBounded(server, p, k - 1);
    }
  }

  /** Once a step has failed, further steps change nothing and send nothing. */
  lemma {:induction false} FailureIsFinal<T>(server: Server<T>, p: PageData<T>, k: nat, j: nat)
    requires Walk(server, p, k).outcome.Failure?
    requires k <= j
    ensures Walk(server, p, j) == Walk(server, p, k)
  {
    if k < j {
      FailureIsFinal(server, p, k, j - 1);
    }
  }

  /**
   * A page whose cursor is empty is terminal and stays so: every later step
   * yields the sentinel, and no request is sent after it was reached.
   */
  lemma {:induction false} TerminalIsFinal<T>(server: Server<T>, p: PageData<T>, k: nat, q: PageData<T>, j: nat)
    requires Walk(server, p, k).outcome == Success(q)
    requires q.nextURL == ""
    requires k < j
    ensures Walk(server, p, j) == Trace(Failure(EmptyNextURL), Walk(server, p, k).requests)
  {
    FailureIsFinal(server, p, k + 1, j);
  }

  /**
   * A failed fetch ends the traversal with the service's error, unchanged,
   * after exactly one request for the failing cursor.
   */
  lemma {:induction false} FetchErrorIsFinal<T>(server: Server<T>, p: PageData<T>, k: nat, q: PageData<T>, e: FetchError, j: nat)
    requires Walk(server, p, k).outcome == Success(q)
    requires q.nextURL != "" && server(Continuation(q)) == Failed(e)
    requires k < j
    ensures Walk(server, p, j) == Trace(Failure(Fetch(e)), Walk(server, p, k).requests + [Continuation(q)])
  {
    FailureIsFinal(server, p, k + 1, j);
  }

  /**
   * Along a chain the service hands out, the i-th step yields the i-th page,
   * never a stale or reordered one, after one request per earlier page: the
   * cursors of pages 0 to i-1, verbatim, in order.
   */
  lemma {:induction false} WalkFollowsTraversal<T>(server: Server<T>, pages: seq<PageData<T>>, i: nat)
    requires IsTraversal(server, pages)
    requires i < |pages|
    ensures Walk(server, pages[0], i) == Trace(Success(pages[i]), Cursors(pages[..i]))
  {
    if i > 0 {
      WalkFollowsTraversal(server, pages, i - 1);
      assert Cursors(pages[..i]) == Cursors(pages[..i - 1]) + [Continuation(pages[i - 1])];
    }
  }

  /**
   * A chain whose last page has an empty cursor ends exactly one step after
   * that page: step |pages| and every later step yield the sentinel, and the
   * requests sent are the cursors of all pages but the last.
   */
  lemma TraversalEndsAfterLastPage<T>(server: Server<T>, pages: seq<PageData<T>>, j: nat)
    requires IsTraversal(server, pages)
    requires pages[|pages| - 1].nextURL == ""
    requires |pages| <= j
    ensures Walk(server, pages[0], |pages| - 1).outcome == Success(pages[|pages| - 1])
    ensures Walk(server, pages[0], j) == Trace(Failure(EmptyNextURL), Cursors(pages[..|pages| - 1]))
  {
    WalkFollowsTraversal(server, pages, |pages| - 1);
    TerminalIsFinal(server, pages[0], |pages| - 1, pages[|pages| - 1], j);
  }

  /**
   * The sentinel is only ever reached from a terminal page: if a traversal
   * yields `EmptyNextURL`, some earlier step gave a page with an empty cursor.
   */
  lemma {:induction false} SentinelOnlyAfterTerminal<T>(server: Server<T>, p: PageData<T>, j: nat)
    requires Walk(server, p, j).outcome == Failure(EmptyNextURL)
    ensures exists k :: 0 <= k < j && Walk(server, p, k).outcome.Success? && Walk(server, p, k).outcome.value.nextURL == ""
  {
    assert j > 0;
    if Walk(server, p, j - 1).outcome.Failure? {
      SentinelOnlyAfterTerminal(server, p, j - 1);
    } else {
      assert Walk(server, p, j - 1).outcome.value.nextURL == "";
    }
  }

  // ---------------------------------------------------------------------------
  // Two traversals driven through the heap model
  // ---------------------------------------------------------------------------

  /**
   * Illusts [1, 2] with a cursor; the service answers it with [3] and no
   * cursor. Advancing fetches the cursor once with no parameters and returns
   * that page; advancing that page yields the sentinel without a request.
   */
  method IllustTraversalExample() {
    var cursor := "https://app-api.pixiv.net/v1/user/illusts?user_id=1&offset=30";
    var last: PageData<Illust> := PageData([Illust(3)], "", [], 0);
    var api := new AppAPI((q: Request) =>
      if q.url == cursor && q.params == None then Delivered(last) else Failed(TransportError("unexpected request")));
    var first := new Page(api);
    first.items, first.nextURL := [Illust(1), Illust(2)], cursor;

    var second, err := NextIllusts(first);
    assert err == None && second != null;
    assert second.items == [Illust(3)] && second.nextURL == "" && second.api == api;
    assert first.items == [Illust(1), Illust(2)] && first.nextURL == cursor;
    assert api.log == [Request(cursor, None)];

    var third, err2 := NextIllusts(second);
    assert third == null && err2 == Some(EmptyNextURL);
    assert api.log == [Request(cursor, None)];
  }

  /**
   * The service answers the cursor with HTTP 500. Advancing returns that error
   * as it is, no page, and leaves the page the caller holds as it was.
   */
  method CommentFetchFailureExample() {
    var cursor := "https://app-api.pixiv.net/v2/illust/comments?illust_id=7&offset=30";
    var failure := AppAPIError(500, "internal", "", "");
    var api := new AppAPI((q: Request) => Failed(failure));
    var page := new Page(api);
    page.items, page.nextURL := [Comment(1)], cursor;

    var next, err := NextComments(page);
    assert next == null && err == Some(Fetch(failure));
    assert page.items == [Comment(1)] && page.nextURL == cursor && page.api == api;
    assert api.log == [Request(cursor, None)];
  }
}
