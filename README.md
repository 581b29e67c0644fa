# Cursor pagination of the pixiv app API client

This project models the paginated responses of the pixiv app API client
(`pixiv/response.go`) and their one piece of behaviour: the pagination step
`NextComments`, `NextNovels`, `NextIllusts` and `NextFollowing`.

A list response holds a page of items, the `next_url` cursor and a
back-reference to the client (`AppAPI`) that fetched it. Every step works the
same way. If the cursor is empty, it fails at once with the sentinel
`ErrEmptyNextURL` and sends nothing. Otherwise it allocates a fresh response
bound to the same client. It asks the client's `get` to fill that response
from the cursor, with no extra parameters. Then it returns the client's
error unchanged, or the new page.

Layout:

- `wrappers.dfy` (module `Wrappers`): `Option` (Go's `nil`-able value) and `Result`.
- `response.dfy` (module `Response`): the errors and the item records.
  - `PageData`, a response's JSON fields as a value.
  - The service as a total function from request to reply. Nothing constrains its answers.
  - `Advance`, the step on values.
  - The heap model: the client class `AppAPI` (its `get`, and a ghost log of every request it sent).
  - The generic response class `Page<T>` with `Next`.
  - The four Go response types as type synonyms of `Page` (`RespComments`, `RespNovels`, `RespIllusts`, `RespUserPreviews`), and their four `Next*` methods.
  - Every step method ensures the two-state predicate `Stepped`. It says the receiver is unchanged, exactly one of (page, error) is set, and a returned page is fresh and bound to the same client. It also says the client sent exactly the requests `Requests` names, and the pair is the outcome `Advance` gives.
- `traversal.dfy` (module `Traversal`): `Walk`, the state of a caller after k successive steps. It has lemmas about whole traversals, and two example traversals driven through the heap model: an illust chain that ends with the sentinel, and a comment fetch that fails with HTTP 500.

## Model

| member | source | states |
|---|---|---|
| `Response.Advance` | pixiv/response.go:92-102 | The sentinel comes back exactly when the cursor is empty. A page comes back exactly when the cursor is set and the service delivers a page for the cursor. That page is the delivered one, its own cursor included. A fetch error is the service's error, not wrapped or replaced. |
| `Response.Requests` | pixiv/response.go:93-97 | A step sends at most one request. It sends none exactly when the cursor is empty, and the one it sends is for the cursor verbatim with `nil` parameters. |
| `Response.Page.constructor` | pixiv/response.go:96 | A fresh response holds Go's zero values and is bound to the given client. |
| `Response.AppAPI.Get` | pixiv/response.go:97 | The client logs one request. On an error reply it returns that error. On a delivered page it returns no error and fills the target's JSON fields with the page, leaving the target's client untouched. |
| `Response.Page.Next` | pixiv/response.go:92-102 | `Stepped`: the receiver is unchanged. Exactly one of (page, error) is set. A returned page is fresh and bound to the receiver's client. The client sent no request when the cursor is empty and otherwise one (cursor verbatim, no parameters). The result is `Advance`'s outcome: the sentinel, the client's error unchanged, or the fetched page. |
| `Response.NextComments` | pixiv/response.go:92-102 | `Stepped` for a comments response. |
| `Response.NextNovels` | pixiv/response.go:127-137 | `Stepped` for a novels response. |
| `Response.NextIllusts` | pixiv/response.go:175-185 | `Stepped` for an illusts response. |
| `Response.NextFollowing` | pixiv/response.go:225-235 | `Stepped` for a user-previews response. |
| `Traversal.WalkRequestsBounded` | pixiv/response.go:93-97 | A traversal of k steps sends at most k requests, all with no extra parameters. |
| `Traversal.FailureIsFinal` | pixiv/response.go:98-100 | The traversal's stop rule: a failed step returns no page, so the caller has no new page to advance. From then on the walk stays where it is and sends nothing more. A caller that calls `Next*` again on the last good page starts a new walk from that page. |
| `Traversal.TerminalIsFinal` | pixiv/response.go:93-95 | A page whose cursor is empty is terminal and stays so. Every later step yields `ErrEmptyNextURL`, and no request is sent after that page. |
| `Traversal.FetchErrorIsFinal` | pixiv/response.go:97-100 | A failed fetch ends the traversal with the service's error unchanged, after exactly one request for the failing cursor. |
| `Traversal.WalkFollowsTraversal` | pixiv/response.go:96-101 | Along a chain the service hands out, step i yields exactly page i, never a stale one. It does so after one request per earlier page: those pages' cursors, verbatim and in order. |
| `Traversal.TraversalEndsAfterLastPage` | pixiv/response.go:93-101 | A chain whose last page has an empty cursor ends exactly one step after that page. That step and every later one yield `ErrEmptyNextURL`, and the requests sent are the cursors of all pages but the last. |
| `Traversal.SentinelOnlyAfterTerminal` | pixiv/response.go:11-12 | A traversal yields the sentinel only after some earlier step gave a page with an empty cursor. So the sentinel can be told apart from any fetch error. |

## Left out

- `AppAPI.get` internals (HTTP transport, authentication, JSON decoding) live in files that are not part of this model. The service is a parameter: a total function from request to reply, whose answers are unconstrained. `Get` only logs the request and copies a delivered page into the target.
- `AppAPI` is modelled as one client per item type (`AppAPI<T>`), because `get` in the source fills a target of any type by reflection. A single Go client serving all four response kinds is therefore shown as four fetchers with four independent logs.
- `Response.AppAPI.Get`: says nothing about the target when `get` fails. A failed decode in Go may leave it partly filled, and `Next*` discards it in that case.
- The service is a fixed function of the request. A real service may answer the same cursor differently over time; the traversal lemmas are stated for one fixed service.
- `Page<T>` carries the ranking list and `search_span_limit` fields on every kind. The comments and user-previews responses have no such fields in the source, and pagination never reads them.
- `ErrAuth.Error` and `ErrAppAPI.Error` (string formatting over `*http.Response`, a foreign library). `FetchError.AppAPIError` keeps only the status and the decoded fields.
- The plain JSON records (`RespAuth`, `RespNovel`, `RespNovelText`, `RespIllust`, `RespUserDetail`, `RespUgoiraMetadata`, `RespTrendingTags`, `RespTags`, `RespComment`) have no behaviour. The item records `Comment`, `Novel`, `Illust` and `User` are defined in files not part of this model, and appear here only as an identifier.
- `RespBookmarkTags` has a `NextURL` field and a client but no pagination method in the source. None is modelled.
- Concurrency of a client shared between traversals: there is none in this code.
- A response with a cursor but no client makes the source call `get` on a nil client. The body of `get` is not part of this model, but it uses the client. `Next*` therefore requires a client whenever the cursor is non-empty.
