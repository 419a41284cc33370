# Followers scraper: a Dafny model

This project models the followers scraper of tweet-dropper (`src/extra/followers.ts`).
A `Scraper` for one account runs in two stages:

1. **Collection.** It walks the paginated followers-ids listing. Each page's ids are appended to
   the `ids` field. It follows `next_cursor_str` until the cursor is `"0"` or at least 15000 ids are
   held. The check comes after a page is appended, so the last page is always taken in full.
2. **Enrichment.** It splits `ids` into contiguous chunks of at most 100 and sends one users-lookup
   request per chunk, with the chunk joined by commas. It renames the fields of every returned
   profile into a `User` record and appends the records to the `users` field, in chunk order and
   then response order.

Files and modules:

- `wrappers.dfy` (`Wrappers`): `Option`, used for the optional cursor and for failed responses.
- `chunking.dfy` (`Chunking`): `chunk` as a loop (`Chunk`), proved equal to the recursive
  specification `Chunked`, plus the partition properties.
- `endpoints.dfy` (`Endpoints`): the two request URLs. `FollowersEndpoint` is
  `generateFollowersEndpoint`, including TypeScript truthiness: an empty token counts as no token.
  `LookupEndpoint` builds the lookup URL with `Join` (`Array.prototype.join(",")`). Each URL has a
  parser (`CursorOf`; `RequestedIds` with `Split`) and a round-trip lemma.
- `followers.dfy` (`Followers`): the `User` and `RawUser` records and the field renaming.
  `Collect` and `Enrich` are the recursive specifications of the two stages. The class `Scraper`
  has the `ids` and `users` fields and the methods `CollectAllFollowers` (the recursion on the
  cursor, written as a loop), `CollectAllUsers` (the outer loop over chunks, with the inner loop
  over one response's records in `AppendUsers`) and `Scrape`.

The HTTP calls are oracles passed in as parameters:

- **Listing.** The listing server is the finite sequence of pages it answers in this run.
  Request `i` gets page `i`. A request past the end of the sequence fails.
- **Lookup.** The lookup server is a function from the request URL to the returned profiles.
  `None` means the request failed.

In the source, a failed request throws and aborts `scrape`. In the model, the operation reports
`ok == false`. Ids and records appended before the failure stay in the fields, as they do in the
source's fields.

`generateFollowersEndpoint` only reads the handle, and `chunk` reads nothing of the object. Both are
therefore module-level members: `FollowersEndpoint` takes the handle as an argument, and `Chunk`
is a stand-alone method.

One behaviour worth knowing: if the listing ever returned an empty `next_cursor_str` (which is not
`"0"`), the follow-up request would have no cursor and would ask for the first page again.
`FollowersEndpoint` and `CursorRoundTrip` show this.

## Model

| member | source | states |
|---|---|---|
| `Chunking.Chunk` | src/extra/followers.ts:64-72 | the index loop that pushes `slice(i, i + chunkSize)` returns exactly `Chunked(a, chunkSize)`; requires `chunkSize > 0`, since with 0 the loop never advances |
| `Chunking.FlattenChunked` | src/extra/followers.ts:64-72 | concatenating the chunks gives back the input: nothing is dropped, duplicated or reordered |
| `Chunking.ChunkLengths` | src/extra/followers.ts:67-68 | every chunk is non-empty and at most `n` long; every chunk except the last is exactly `n` long |
| `Chunking.ChunkCount` | src/extra/followers.ts:67-68 | there are ⌈\|a\|/n⌉ chunks, and there are none exactly when the input is empty |
| `Chunking.ChunkAt` | src/extra/followers.ts:67-68 | chunk `k` is the slice `[k*n, min((k+1)*n, \|a\|))` of the input (an independent, index-based definition) |
| `Endpoints.FollowersEndpoint` | src/extra/followers.ts:32-38 | the URL always starts with the base URL (screen name, then `&stringify_ids=true`); it equals the base URL exactly when the token is absent or empty |
| `Endpoints.CursorRoundTrip` | src/extra/followers.ts:32-38 | the cursor read back from a listing URL is the token it was built from when that token is truthy, and nothing otherwise |
| `Endpoints.FollowersEndpointInjective` | src/extra/followers.ts:32-38 | two listing URLs are equal exactly when their tokens are equal once truthiness is applied |
| `Endpoints.Join` | src/extra/followers.ts:79 | definition only: `join(",")` of one chunk; `Endpoints.SplitJoin` proves that splitting on `","` inverts it |
| `Endpoints.SplitJoin` | src/extra/followers.ts:79 | splitting the comma-join of a non-empty list of comma-free ids on `","` gives the list back |
| `Endpoints.LookupEndpoint` | src/extra/followers.ts:83 | definition only: the users-lookup URL for one chunk; `Endpoints.RequestedIdsRoundTrip` proves its `user_id` parameter holds exactly that chunk |
| `Endpoints.RequestedIdsRoundTrip` | src/extra/followers.ts:79-83 | the `user_id` parameter of a lookup URL holds exactly the chunk it was built from |
| `Followers.ToUser` | src/extra/followers.ts:92-101 | definition only, with no contract of its own: the record built from one profile; what it does to each field is stated by `Followers.ToUserBijective` |
| `Followers.ToUserBijective` | src/extra/followers.ts:92-101 | each of the eight record fields is pinned: `id` is `id_str`, `handle` is `screen_name`, `following_count` is `friends_count`, and `name`, `description`, `followers_count`, `verified` and `created_at` pass through unchanged; the renaming has an inverse, so no field is lost or merged |
| `Followers.ShouldContinue` | src/extra/followers.ts:56-57 | definition only: the test `nextCursor !== "0" && ids.length < 15000`, taken on the ids held after the page is appended; what it implies for a run is stated by `Followers.CollectContinues`, `Followers.CollectStops` and `Followers.FollowUpsBelowCeiling` |
| `Followers.Collect` | src/extra/followers.ts:42-60 | definition only: `collectAllFollowers` in its recursive form, one page per call; what a run yields is stated by `Followers.CollectIds` and `Followers.CollectCursors`, and `Followers.Scraper.CollectAllFollowers` is proved to agree with it |
| `Followers.CollectIds` | src/extra/followers.ts:52-59 | a run ends holding the ids it started with, followed by every answered page in full, in page order; only a run whose requests ran past the server's pages fails |
| `Followers.CollectCursors` | src/extra/followers.ts:42-45 | the first request carries the starting cursor; request `k` carries the `next_cursor_str` of page `k-1`; at most one request per page plus one |
| `Followers.CollectContinues` | src/extra/followers.ts:56-59 | each requested page except the last had a cursor other than `"0"`, and fewer than 15000 ids were held after it |
| `Followers.CollectStops` | src/extra/followers.ts:56-59 | a successful run stopped on its last page because the cursor was `"0"` or at least 15000 ids were held |
| `Followers.CollectKeepsPrefix` | src/extra/followers.ts:52-53 | `ids` only grows: the ids held before collection are a prefix of the ids after it |
| `Followers.FollowUpsBelowCeiling` | src/extra/followers.ts:56-58 | every follow-up request is made with fewer than 15000 ids held and with a cursor other than `"0"` |
| `Followers.CollectEndsAtStop` | src/extra/followers.ts:56-59 | collection ends successfully no later than the first page whose cursor is `"0"` or after which at least 15000 ids are held |
| `Followers.Enrich` | src/extra/followers.ts:75-106 | definition only: `collectAllUsers` over a list of chunks, one lookup per chunk, stopping at the first failed one; its requests and records are stated by `Followers.EnrichRequests` and `Followers.EnrichUsers`, and `Followers.Scraper.CollectAllUsers` is proved to agree with it |
| `Followers.EnrichRequests` | src/extra/followers.ts:76-87 | one lookup per chunk in chunk order, up to and including the first failed one; a run succeeds exactly when every chunk was looked up |
| `Followers.EnrichUsers` | src/extra/followers.ts:89-102 | the records appended are those of the responses to the chunks requested, in chunk order and then response order |
| `Followers.EnrichPreservesOrder` | src/extra/followers.ts:78-102 | if every chunk is answered with records for exactly its ids, enrichment succeeds and the record ids are the concatenated chunks |
| `Followers.LookupsCarryChunks` | src/extra/followers.ts:76-83 | for comma-free ids, lookup `k` asks for a non-empty run of at most 100 ids: ids `[100k, min(100(k+1), \|ids\|))` |
| `Followers.UsersFollowIds` | src/extra/followers.ts:76-105 | against a server that answers exactly, there is one record per collected id, in order, so `\|users\|` grows by `\|ids\|` |
| `Followers.Scraper.constructor` | src/extra/followers.ts:19-29 | stores the bearer token and the handle; `ids` and `users` start empty |
| `Followers.Scraper.CollectAllFollowers` | src/extra/followers.ts:42-60 | the loop leaves `ids`, the success flag and the requested URLs as `Collect` of the old `ids` gives them; `users` is unchanged |
| `Followers.Scraper.CollectAllUsers` | src/extra/followers.ts:75-106 | `users` becomes its old value followed by `Enrich` of the 100-chunks of `ids`, and the requested URLs are that run's; `ids` is unchanged |
| `Followers.Scraper.AppendUsers` | src/extra/followers.ts:89-102 | the inner loop leaves `users` as its old value followed by the renamed records of one response, in response order |
| `Followers.Scraper.Scrape` | src/extra/followers.ts:109-119 | collection runs to completion first; the lookups then chunk the final `ids`, and the request log is all listing requests followed by all lookups; a failed collection makes no lookup |

## Left out

- HTTP through axios and the bearer header (src/extra/followers.ts:43-49, 81-87): network I/O. These are the two oracles above. The bearer token is stored but never used.
- Responses whose shape is wrong (missing `ids`, a `data` that is not an array): the oracles always return well-formed pages and profile lists. A failed request is the only error modelled.
- `fs.writeFileSync` and `JSON.stringify` of `ids` and `users` (src/extra/followers.ts:114, 118): file I/O and a library serialiser. The serialise/deserialise round trip of those files is not modelled either.
- Logging through winston (src/logger.ts and the `logger.info` calls at src/extra/followers.ts:54, 104, 111, 117): output only.
- Environment handling, dotenv and the process-exit bootstrap (src/extra/followers.ts:122-135): configuration plumbing.
- src/app.ts: it only passes environment values to `./scraper`, and `./scraper` is not part of this model.
- async/await: the stages run strictly one after another, so they are modelled as ordinary sequential calls.
- Numbers: `followers_count` and `friends_count` are JavaScript numbers, modelled as unbounded integers. `chunk` is modelled only for natural chunk sizes; fractional or negative sizes are not covered.
- Collection over an unbounded server: the listing oracle is a finite sequence of pages. A cursor chain that never answers `"0"` and never delivers 15000 ids would make the source loop forever. Here it ends as a failed request once the pages run out.
