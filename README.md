# Facebook Graph API client: target resolution and dispatch

A model of the `Facebook` client class, which posts, lists, edits and deletes
content on the principal's own feed or on the pages the principal
administers. Every operation first decides which node id and which access
token a request carries. It then sends the request through one funnel,
`_requester`, which stamps the token into the parameters and turns any
transport failure into an `{'error': reason}` value.

`facebook.py` and `utils/facebook.py` are the same file line for line. The
table cites `facebook.py`; every line number holds for `utils/facebook.py` too.

How the model is built:

- **The remote is an oracle.** `Http.Oracle` maps a request, given every
  request this client issued before it, to a `Reply`. A reply is a decoded
  body or an `Error(reason)`.
- **The client records a trace.** Its field `trace` lists every request in
  issue order. A request holds its verb, node id, edge, parameters (with
  `access_token`) and uploaded file. So "no request is issued" and "the feed
  post goes to id 200 with token tok2" are plain statements about the trace.
- **Module Operations specifies each operation.** Each is a function from the
  client state and the trace so far to a `Step`: the returned value plus the
  new trace. The properties the code promises are the `ensures` of these
  functions and the lemmas beside them.
- **Module Client mirrors the Python.** Class `Client.Facebook` follows the
  Python methods branch by branch, with loops where the Python has them. Each
  method is proved to return, and leave in `trace`, exactly what its
  Operations function says. There are two departures in form. The body of the
  `post_bulk` loop is its own method, `PostItem`. The `get_posts_list`
  fallback calls `SelectPage` but leaves the id and token empty: the source
  binds the whole answer dict to `page_id` and then reads an empty token, so
  the guard rejects it either way.
- **Module Resolution holds the three resolution policies.** These are the
  pure branch selections of `post_text`, `get_posts_list` and
  `edit_post`/`delete_post`.
- **Module Pages** decodes a page listing, builds the cache and scans for a
  name.
- **Module Scenarios** runs two concrete sessions against a fixed remote.

Three facts about the code shape the model:

- Only `post_text` checks `'me'` before the cache. `get_posts_list`,
  `edit_post` and `delete_post` check the cache first.
- The fallback of `get_posts_list` fetches the listing but never yields a
  target.
- `post_text_with_images`, `post_text_with_video` and `post_bulk` resolve
  nothing. They send to the raw `page_id` with the root token.

## Model

| member | source | states |
|---|---|---|
| `Pages.ListedPages` | facebook.py:174-178 | `get_pages_list` yields `[]` for an error answer or a missing `data` field; otherwise it yields the listed pages, in order |
| `Pages.BuildCache` | facebook.py:15 | the cache's keys are exactly the listed names; each maps to the id and token of the LAST entry with that name |
| `Pages.FirstMatch` | facebook.py:240-244 | the scan returns nothing iff no page has exactly that name; otherwise it returns the id and token of the FIRST such page |
| `Pages.ScanAgreesWithCache` | facebook.py:239-244 | when listed names are distinct, a fresh scan of the same listing finds exactly the cached pages, with the same id and token |
| `Pages.DuplicateNamesDisagree` | facebook.py:15 | for any name listed at positions i < j, with i the first and j the last such position, the cache holds page j and the scan returns page i |
| `Pages.DuplicateShop` | facebook.py:240-244 | an instance: "Shop" listed as id 1 and then as id 2 is cached as id 2 and found by the scan as id 1 |
| `Resolution.PostTextTarget` | facebook.py:47-61 | `post_text` order: `'me'` goes to (profile id, root token) before the cache is consulted; then a cached page; then the scan result, if any |
| `Resolution.PostsTarget` | facebook.py:145-159 | `get_posts_list` order: cache, then `'me'`; a target only with non-empty id and token; never a target for a name that is neither cached nor `'me'` |
| `Resolution.NarrowToken` | facebook.py:191-197 | `edit_post`/`delete_post` accept a name iff it is cached or `'me'`; the cached token wins over the root token |
| `Resolution.MeSentinelPrecedence` | facebook.py:47-52 | a page named `me` is shadowed by the principal in `post_text` but wins in `get_posts_list`, `edit_post` and `delete_post` |
| `Resolution.CachedNamesAgree` | facebook.py:147-149 | for a cached name other than `me`, all three policies pick the cached page |
| `Resolution.FallbackOnlyInPostText` | facebook.py:153-159 | an uncached name that a fresh scan finds resolves for `post_text` only |
| `Operations.Send` | facebook.py:17-34 | one request is appended; its params are the caller's params with `access_token` set to the override if non-empty, else the root token; a failure answers exactly `{'error': reason}`, a success the body |
| `Operations.PagesListRun` | facebook.py:167-178 | one `/me/accounts` request with the root token; a failed fetch lists nothing |
| `Operations.SelectPageRun` | facebook.py:229-244 | one fresh listing request; the answer is the first exact name match in that listing |
| `Operations.Boot` | facebook.py:4-15 | construction issues the profile request, then the listing request; the cache is the cache of that listing, and empty if the listing failed |
| `Operations.PostTextRun` | facebook.py:36-63 | `'me'` posts to the profile id with the root token; a cached name posts with the cached id and token; otherwise one listing request, then either a feed post with the found page's id and token, or `{'error': 'Page ID or user account not found'}` with no feed request; the feed answer is returned unchanged |
| `Operations.ImagesRun` | facebook.py:77-82 | one upload per photo, in input order, each to the raw page id with the root token; answer i is the reply to upload i; no photos, no request |
| `Operations.ImagesReply` | facebook.py:83 | the answer's only key is `photos` (so a failed batch never has a top-level `error` key), holding one entry per upload, in order |
| `Operations.VideoRun` | facebook.py:97-99 | one video upload to the raw page id with the root token, answered unchanged |
| `Operations.ItemRun` | facebook.py:113-130 | dispatch precedence is `photos` key, then `videos` key (first video only), then a plain feed post; each branch's requests and its answer (the `{'photos': [...]}` reply of the uploads, the video reply, or the feed reply); every request goes to the raw page id with the root token |
| `Operations.BulkRun` | facebook.py:112-132 | one answer per item whatever its outcome; earlier requests stay in place; every new request goes to the raw page id with the root token |
| `Operations.BulkRunAt` | facebook.py:113-131 | answer i is what item i alone yields once the items before it have run |
| `Operations.PostsListRun` | facebook.py:145-165 | an uncached name other than `'me'` costs one listing request and yields `[]`; an empty id or token yields `[]` with no request; otherwise one posts request with the resolved id and token, and the answer's `data` (or `[]` on error or no data) |
| `Operations.EditRun` | facebook.py:191-202 | an unresolvable name yields `{}` and no request; otherwise one POST of `{message}` to the post id with the cached or root token, answered unchanged |
| `Operations.DeleteRun` | facebook.py:215-226 | the same narrow resolution; one DELETE of the post id, answered unchanged |
| `Client.Facebook.constructor` | facebook.py:4-15 | the fields and trace after construction are those `Boot` gives |
| `Client.Facebook.Requester` | facebook.py:17-34 | returns and records what `Send` gives |
| `Client.Facebook.PostText` | facebook.py:36-63 | returns and records what `PostTextRun` gives |
| `Client.Facebook.PostTextWithImages` | facebook.py:65-83 | the loop returns and records what `ImagesRun` gives |
| `Client.Facebook.PostTextWithVideo` | facebook.py:85-99 | returns and records what `VideoRun` gives |
| `Client.Facebook.PostBulk` | facebook.py:101-132 | the loop returns and records what `BulkRun` gives |
| `Client.Facebook.PostItem` | facebook.py:114-130 | one loop iteration of `post_bulk` returns and records what `ItemRun` gives |
| `Client.Facebook.GetPostsList` | facebook.py:134-165 | returns and records what `PostsListRun` gives |
| `Client.Facebook.GetPagesList` | facebook.py:167-178 | returns and records what `PagesListRun` gives |
| `Client.Facebook.EditPost` | facebook.py:180-202 | returns and records what `EditRun` gives |
| `Client.Facebook.DeletePost` | facebook.py:204-226 | returns and records what `DeleteRun` gives |
| `Client.Facebook.SelectPage` | facebook.py:229-244 | the scan loop returns what `SelectPageRun` gives; the cache is left unchanged |
| `Scenarios.PostToCachedPage` | facebook.py:47-63 | profile id 100 and page Shop (id 200, token tok2): `post_text("Shop", "Hello")` issues exactly one request, a feed post to 200 with tok2 |
| `Scenarios.EditOnUnknownPage` | facebook.py:191-197 | `edit_post("500", "new text", "Unknown")` with Unknown not cached returns `{}` and issues no request |

## Left out

- HTTP transport (`requests.get/post/delete`, `raise_for_status`, `response.json()`): replaced by the oracle. A connection error, a non-2xx status and an undecodable body all become `Error(reason)`. The oracle is deterministic given the trace; any remote behaviour that depends on more than that trace is not modelled.
- URLs: only the node id and edge are recorded, not the formatted string. `requests` drops a `None` parameter (a missing `link`), but the model records it as JSON null.
- `print` logging is not modelled.
- File handling: photos and videos are opaque `Media` handles. Opening a missing file raises in the source, and closing files with `with` is a runtime concern. Neither is modelled.
- The source raises an exception in these cases, and the model excludes them rather than modelling the exception:
  - reading `me['id']` when the profile has no `id`: a precondition (`HasId`);
  - an item with a `videos` key, no `photos` key and an empty video list (`videos[0]`): a precondition (`Dispatchable`);
  - a `/me/accounts` answer whose `data` is not a list of page objects with string `name`, `id` and `access_token`: excluded by the `Oracle` type. The source raises on such an answer only where it reads the entries: the cache comprehension in the constructor, and the `select_page` scan, which reads only the entries up to the first match. The model asks this of every listing answer, at every point in the trace.
- `_requester` with a method other than get, post or delete fails in the source with an unbound local. `Verb` has only the three values.
- In-place mutation of `params`: every caller passes a fresh dict literal or the shared mutable default `{}`. The shared default only ever receives `access_token`, and each call overwrites it, so the mutation cannot be observed. The model records the stamped parameters in each request instead.
- JSON floats; page ids, names and tokens that are not strings; a profile `id` that is not a string.
- database/database.py (a single document-store insert) and config.py (environment lookup) are not part of this model.
- `Client.Facebook.GetPagesList`: a direct `get_pages_list` call on a built client returns the `data` of the answer unread, so a `data` that is `null`, a string, or a list of entries without `name`, `id` or `access_token` comes back normally. The `Oracle` type rules such answers out for every `/me/accounts` request, so the model cannot represent that return value.
- `Pages.ListedPages`: `get_pages_list` returns the raw page dicts with every field the remote sends. The model keeps only `name`, `id` and `access_token`, which is all the cache and the scan read; any other field is dropped.
- Response bodies that are not JSON objects: `response.json()` may yield a list or a scalar, on which `'error' in ...` and `.get` behave differently or raise. `Reply.Result` carries only an object (`Dict`).
