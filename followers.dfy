/**
 * The followers scraper: cursor-driven collection of follower ids into the
 * `ids` field, then chunked lookups that turn those ids into `User` records
 * appended to the `users` field.
 *
 * The HTTP calls are oracles. The listing endpoint is the finite sequence of
 * pages the server answers in this run: request number i gets page i, and a
 * request past the end fails. The lookup endpoint is a function from the
 * request URL to the records returned, or to `None` when the request fails.
 * A failed request throws in the source and aborts the run; here the
 * operation stops and reports `ok == false`, keeping what it had already
 * appended, as the source's fields do.
 */
module Followers {
  import opened Wrappers
  import opened Chunking
  import opened Endpoints

  /** Collection stops once this many ids have been gathered. */
  const MaxFollowerIds := 15000
  /** The most ids a single users-lookup request carries. */
  const LookupBatchSize := 100
  /** The `next_cursor_str` value meaning "no further pages". */
  const EndOfCursor := "0"

  /** The record the scraper stores for one follower. */
  datatype User = User(
    id: string,
    name: string,
    handle: string,
    description: string,
    followersCount: int,
    followingCount: int,
    verified: bool,
    createdAt: string)

  /** One profile object of the users-lookup response, with its upstream field names. */
  datatype RawUser = RawUser(
    idStr: string,
    name: string,
    screenName: string,
    description: string,
    followersCount: int,
    friendsCount: int,
    verified: bool,
    createdAt: string)

  /** One page of the followers-ids listing: `ids` and `next_cursor_str`. */
  datatype Page = Page(ids: seq<string>, nextCursorStr: string)

  /** The field renaming of `collectAllUsers`. */
  function ToUser(u: RawUser): User
  {
    User(u.idStr, u.name, u.screenName, u.description,
         u.followersCount, u.friendsCount, u.verified, u.createdAt)
  }

  /** The renaming read backwards, upstream names again. */
  function FromUser(v: User): RawUser
  {
    RawUser(v.id, v.name, v.handle, v.description,
            v.followersCount, v.followingCount, v.verified, v.createdAt)
  }

  /** The renaming is a bijection: every upstream field lands in exactly one record field. */
  lemma ToUserBijective(u: RawUser, v: User)
    ensures FromUser(ToUser(u)) == u
    ensures ToUser(FromUser(v)) == v
    ensures ToUser(u).id == u.idStr && ToUser(u).handle == u.screenName
    ensures ToUser(u).followingCount == u.friendsCount
    ensures ToUser(u).name == u.name && ToUser(u).description == u.description
    ensures ToUser(u).followersCount == u.followersCount
    ensures ToUser(u).verified == u.verified && ToUser(u).createdAt == u.createdAt
  {
  }

  /** The renaming applied to every record of one response, in response order. */
  function ToUsers(data: seq<RawUser>): seq<User>
  {
    seq(|data|, k requires 0 <= k < |data| => ToUser(data[k]))
  }

  lemma ToUsersSnoc(data: seq<RawUser>, j: nat)
    requires j < |data|
    ensures ToUsers(data[..j + 1]) == ToUsers(data[..j]) + [ToUser(data[j])]
  {
  }

  function UserIds(us: seq<User>): seq<string>
  {
    seq(|us|, k requires 0 <= k < |us| => us[k].id)
  }

  function RecordIds(data: seq<RawUser>): seq<string>
  {
    seq(|data|, k requires 0 <= k < |data| => data[k].idStr)
  }

  /** Whether `collectAllFollowers` asks for another page after this one. */
  predicate ShouldContinue(nextCursor: string, collected: nat)
  {
    nextCursor != EndOfCursor && collected < MaxFollowerIds
  }

  /** All ids of the given pages, in page order and response order. */
  function AllIds(pages: seq<Page>): seq<string>
  {
    if pages == [] then [] else pages[0].ids + AllIds(pages[1..])
  }

  /**
   * What a run of `collectAllFollowers` ends with: the ids, the cursor each
   * request was made with (absent for the first), and whether it succeeded.
   */
  datatype CollectRun = CollectRun(ids: seq<string>, cursors: seq<Option<string>>, ok: bool)

  /** The number of requests of a run that the server answered. */
  function Answered(run: CollectRun): int
  {
    if run.ok then |run.cursors| else |run.cursors| - 1
  }

  /** Associativity of sequence concatenation, as one fact the solver can use without unfolding it. */
  lemma ConcatAssoc<T>(a: seq<T>, b: seq<T>, c: seq<T>)
    ensures a + (b + c) == (a + b) + c
  {
  }

  /**
   * `collectAllFollowers(cursor)` with `acc` already in `this.ids`, in its
   * recursive form: request a page, append its ids, and recurse on the new
   * cursor while it is not "0" and fewer than 15000 ids are held.
   */
  function Collect(acc: seq<string>, cursor: Option<string>, pages: seq<Page>): CollectRun
    decreases |pages|
  {
    if pages == [] then CollectRun(acc, [cursor], false)
    else
      var ids := acc + pages[0].ids;
      if ShouldContinue(pages[0].nextCursorStr, |ids|) then
        var rest := Collect(ids, Some(pages[0].nextCursorStr), pages[1..]);
        CollectRun(rest.ids, [cursor] + rest.cursors, rest.ok)
      else
        CollectRun(ids, [cursor], true)
  }

  /** Unfolds `Collect` once at page `i`. */
  lemma CollectFrom(acc: seq<string>, cursor: Option<string>, pages: seq<Page>, i: nat)
    requires i < |pages|
    ensures var ids := acc + pages[i].ids;
      Collect(acc, cursor, pages[i..])
        == if ShouldContinue(pages[i].nextCursorStr, |ids|) then
             var rest := Collect(ids, Some(pages[i].nextCursorStr), pages[i + 1..]);
             CollectRun(rest.ids, [cursor] + rest.cursors, rest.ok)
           else
             CollectRun(ids, [cursor], true)
  {
    assert pages[i..][0] == pages[i];
    assert pages[i..][1..] == pages[i + 1..];
  }

  lemma AllIdsShift(pages: seq<Page>, k: nat)
    requires k < |pages|
    ensures AllIds(pages[..k + 1]) == pages[0].ids + AllIds(pages[1..][..k])
  {
    assert pages[..k + 1][1..] == pages[1..][..k];
  }

  /**
   * The ids a run ends with are the ids already held followed by every
   * answered page in full, in order; only a run the server stopped answering
   * fails, and it has used up every page.
   */
  lemma {:induction false} CollectIds(acc: seq<string>, cursor: Option<string>, pages: seq<Page>)
    ensures var run := Collect(acc, cursor, pages);
      && |run.cursors| >= 1
      && 0 <= Answered(run) <= |pages|
      && run.ids == acc + AllIds(pages[..Answered(run)])
      && (!run.ok ==> Answered(run) == |pages|)
    decreases |pages|
  {
    if pages == [] {
      assert pages[..0] == [];
    } else {
      var ids := acc + pages[0].ids;
      if ShouldContinue(pages[0].nextCursorStr, |ids|) {
        var rest := Collect(ids, Some(pages[0].nextCursorStr), pages[1..]);
        CollectIds(ids, Some(pages[0].nextCursorStr), pages[1..]);
        AllIdsShift(pages, Answered(rest));
        ConcatAssoc(acc, pages[0].ids, AllIds(pages[1..][..Answered(rest)]));
      } else {
        assert pages[..1][1..] == [];
      }
    }
  }

  /**
   * The first request carries the starting cursor; every later request
   * carries the `next_cursor_str` of the page before it.
   */
  lemma {:induction false} CollectCursors(acc: seq<string>, cursor: Option<string>, pages: seq<Page>)
    ensures var run := Collect(acc, cursor, pages);
      && 1 <= |run.cursors| <= |pages| + 1
      && run.cursors[0] == cursor
      && forall k :: 0 < k < |run.cursors| ==> run.cursors[k] == Some(pages[k - 1].nextCursorStr)
    decreases |pages|
  {
    if pages != [] {
      var ids := acc + pages[0].ids;
      if ShouldContinue(pages[0].nextCursorStr, |ids|) {
        var rest := Collect(ids, Some(pages[0].nextCursorStr), pages[1..]);
        CollectCursors(ids, Some(pages[0].nextCursorStr), pages[1..]);
        var run := Collect(acc, cursor, pages);
        forall k | 1 < k < |run.cursors|
          ensures run.cursors[k] == Some(pages[k - 1].nextCursorStr)
        {
          assert run.cursors[k] == rest.cursors[k - 1];
          assert pages[1..][k - 2] == pages[k - 1];
        }
      }
    }
  }

  /**
   * Page `k` was answered and asked for a follow-up: its cursor was not "0"
   * and fewer than 15000 ids were held after it.
   */
  predicate ContinuedAfter(acc: seq<string>, pages: seq<Page>, k: nat)
  {
    k < |pages| && ShouldContinue(pages[k].nextCursorStr, |acc + AllIds(pages[..k + 1])|)
  }

  /** Each page but the last that a run requested asked for a follow-up. */
  lemma {:induction false} CollectContinues(acc: seq<string>, cursor: Option<string>, pages: seq<Page>)
    ensures var run := Collect(acc, cursor, pages);
      forall k :: 0 <= k < |run.cursors| - 1 ==> ContinuedAfter(acc, pages, k)
    decreases |pages|
  {
    if pages != [] {
      var ids := acc + pages[0].ids;
      if ShouldContinue(pages[0].nextCursorStr, |ids|) {
        var rest := Collect(ids, Some(pages[0].nextCursorStr), pages[1..]);
        CollectContinues(ids, Some(pages[0].nextCursorStr), pages[1..]);
        var run := Collect(acc, cursor, pages);
        forall k | 0 <= k < |run.cursors| - 1
          ensures ContinuedAfter(acc, pages, k)
        {
          if k == 0 {
            AllIdsShift(pages, 0);
            assert pages[1..][..0] == [];
          } else {
            assert run.cursors == [cursor] + rest.cursors;
            assert k - 1 < |rest.cursors| - 1;
            assert ContinuedAfter(ids, pages[1..], k - 1);
            assert pages[1..][k - 1] == pages[k];
            AllIdsShift(pages, k);
            assert pages[1..][..k] == pages[1..][..(k - 1) + 1];
          }
        }
      }
    }
  }

  /** A run that succeeded stopped on its last page: the cursor was "0" or 15000 ids were reached. */
  lemma {:induction false} CollectStops(acc: seq<string>, cursor: Option<string>, pages: seq<Page>)
    ensures var run := Collect(acc, cursor, pages);
      run.ok ==>
        && |run.cursors| <= |pages|
        && !ShouldContinue(pages[|run.cursors| - 1].nextCursorStr, |run.ids|)
    decreases |pages|
  {
    if pages != [] {
      var ids := acc + pages[0].ids;
      if ShouldContinue(pages[0].nextCursorStr, |ids|) {
        var rest := Collect(ids, Some(pages[0].nextCursorStr), pages[1..]);
        CollectStops(ids, Some(pages[0].nextCursorStr), pages[1..]);
        if rest.ok {
          assert pages[1..][|rest.cursors| - 1] == pages[|rest.cursors|];
        }
      }
    }
  }

  /** `this.ids` only grows: the ids held before a run are a prefix of the ids it ends with. */
  lemma {:induction false} CollectKeepsPrefix(acc: seq<string>, cursor: Option<string>, pages: seq<Page>)
    ensures acc <= Collect(acc, cursor, pages).ids
  {
    CollectIds(acc, cursor, pages);
  }

  /**
   * No follow-up request is made once 15000 ids are held or after a "0"
   * cursor: every request after the first goes out with fewer than 15000 ids
   * held and on a cursor other than "0".
   */
  lemma {:induction false} FollowUpsBelowCeiling(acc: seq<string>, cursor: Option<string>, pages: seq<Page>)
    ensures var run := Collect(acc, cursor, pages);
      forall k :: 0 < k < |run.cursors| ==>
        && k <= |pages|
        && |acc + AllIds(pages[..k])| < MaxFollowerIds
        && run.cursors[k] != Some(EndOfCursor)
  {
    CollectContinues(acc, cursor, pages);
    CollectCursors(acc, cursor, pages);
    var run := Collect(acc, cursor, pages);
    forall k | 0 < k < |run.cursors|
      ensures k <= |pages| && |acc + AllIds(pages[..k])| < MaxFollowerIds && run.cursors[k] != Some(EndOfCursor)
    {
      assert ContinuedAfter(acc, pages, k - 1);
    }
  }

  /**
   * Collection ends, successfully, no later than the first page whose cursor
   * is "0" or after which 15000 ids are held (the page is taken in full).
   */
  lemma {:induction false} CollectEndsAtStop(acc: seq<string>, cursor: Option<string>, pages: seq<Page>, k: nat)
    requires k < |pages|
    requires pages[k].nextCursorStr == EndOfCursor || |acc + AllIds(pages[..k + 1])| >= MaxFollowerIds
    ensures Collect(acc, cursor, pages).ok
    ensures |Collect(acc, cursor, pages).cursors| <= k + 1
  {
    CollectIds(acc, cursor, pages);
    CollectContinues(acc, cursor, pages);
    assert !ContinuedAfter(acc, pages, k);
  }

  /** What a run of `collectAllUsers` ends with: records appended, URLs requested, success. */
  datatype EnrichRun = EnrichRun(users: seq<User>, requests: seq<string>, ok: bool)

  /**
   * `collectAllUsers` over the given chunks, in its recursive form: look up
   * the first chunk, map every returned record and go on with the rest; a
   * failed lookup stops the run.
   */
  function Enrich(chunks: seq<seq<string>>, lookup: string -> Option<seq<RawUser>>): EnrichRun
  {
    if chunks == [] then EnrichRun([], [], true)
    else
      var url := LookupEndpoint(chunks[0]);
      match lookup(url)
      case None => EnrichRun([], [url], false)
      case Some(data) =>
        var rest := Enrich(chunks[1..], lookup);
        EnrichRun(ToUsers(data) + rest.users, [url] + rest.requests, rest.ok)
  }

  /** Unfolds `Enrich` once at chunk `i`. */
  lemma EnrichFrom(chunks: seq<seq<string>>, lookup: string -> Option<seq<RawUser>>, i: nat)
    requires i < |chunks|
    ensures var url := LookupEndpoint(chunks[i]);
      Enrich(chunks[i..], lookup)
        == match lookup(url)
           case None => EnrichRun([], [url], false)
           case Some(data) =>
             var rest := Enrich(chunks[i + 1..], lookup);
             EnrichRun(ToUsers(data) + rest.users, [url] + rest.requests, rest.ok)
  {
    assert chunks[i..][0] == chunks[i];
    assert chunks[i..][1..] == chunks[i + 1..];
  }

  /** The records one lookup request yields, none when it fails. */
  function ResponseUsers(lookup: string -> Option<seq<RawUser>>, url: string): seq<User>
  {
    match lookup(url)
    case None => []
    case Some(data) => ToUsers(data)
  }

  /** Reference: the records of looking up every chunk, concatenated in chunk order. */
  function UsersOf(chunks: seq<seq<string>>, lookup: string -> Option<seq<RawUser>>): seq<User>
  {
    if chunks == [] then []
    else ResponseUsers(lookup, LookupEndpoint(chunks[0])) + UsersOf(chunks[1..], lookup)
  }

  /** Request `k` of a run was the lookup of chunk `k`, and it failed exactly when it was the run's failing last one. */
  predicate LookedUp(run: EnrichRun, chunks: seq<seq<string>>, lookup: string -> Option<seq<RawUser>>, k: nat)
  {
    && k < |run.requests| && k < |chunks|
    && run.requests[k] == LookupEndpoint(chunks[k])
    && (lookup(run.requests[k]).None? <==> (!run.ok && k == |run.requests| - 1))
  }

  /**
   * One request per chunk, in chunk order, up to and including the first
   * failed one; a run succeeds exactly when it looked up every chunk.
   */
  lemma {:induction false} EnrichRequests(chunks: seq<seq<string>>, lookup: string -> Option<seq<RawUser>>)
    ensures var run := Enrich(chunks, lookup);
      && |run.requests| <= |chunks|
      && (run.ok ==> |run.requests| == |chunks|)
      && (!run.ok ==> |run.requests| > 0)
      && forall k :: 0 <= k < |run.requests| ==> LookedUp(run, chunks, lookup, k)
  {
    if chunks != [] {
      var url := LookupEndpoint(chunks[0]);
      if lookup(url).Some? {
        var rest := Enrich(chunks[1..], lookup);
        EnrichRequests(chunks[1..], lookup);
        var run := Enrich(chunks, lookup);
        forall k | 0 <= k < |run.requests|
          ensures LookedUp(run, chunks, lookup, k)
        {
          if k > 0 {
            assert LookedUp(rest, chunks[1..], lookup, k - 1);
          }
        }
      }
    }
  }

  lemma UsersOfShift(chunks: seq<seq<string>>, lookup: string -> Option<seq<RawUser>>, k: nat)
    requires k < |chunks|
    ensures UsersOf(chunks[..k + 1], lookup)
         == ResponseUsers(lookup, LookupEndpoint(chunks[0])) + UsersOf(chunks[1..][..k], lookup)
  {
    assert chunks[..k + 1][1..] == chunks[1..][..k];
  }

  /** The records a run appends are those of the chunks it requested, in chunk order then response order. */
  lemma {:induction false} EnrichUsers(chunks: seq<seq<string>>, lookup: string -> Option<seq<RawUser>>)
    ensures var run := Enrich(chunks, lookup);
      |run.requests| <= |chunks| && run.users == UsersOf(chunks[..|run.requests|], lookup)
  {
    if chunks == [] {
      assert chunks[..0] == [];
    } else {
      var url := LookupEndpoint(chunks[0]);
      if lookup(url).Some? {
        var rest := Enrich(chunks[1..], lookup);
        EnrichUsers(chunks[1..], lookup);
        UsersOfShift(chunks, lookup, |rest.requests|);
      } else {
        assert chunks[..1][1..] == [];
      }
    }
  }

  /** The server answers every chunk with records for exactly the requested ids, in request order. */
  predicate AnswersExactly(chunks: seq<seq<string>>, lookup: string -> Option<seq<RawUser>>)
  {
    forall k :: 0 <= k < |chunks| ==>
      && lookup(LookupEndpoint(chunks[k])).Some?
      && RecordIds(lookup(LookupEndpoint(chunks[k])).value) == chunks[k]
  }

  lemma ToUsersIds(data: seq<RawUser>)
    ensures UserIds(ToUsers(data)) == RecordIds(data)
  {
  }

  lemma UserIdsAppend(a: seq<User>, b: seq<User>)
    ensures UserIds(a + b) == UserIds(a) + UserIds(b)
  {
  }

  /** Against a server that answers exactly, the records come out in the order of the ids requested. */
  lemma {:induction false} EnrichPreservesOrder(chunks: seq<seq<string>>, lookup: string -> Option<seq<RawUser>>)
    requires AnswersExactly(chunks, lookup)
    ensures Enrich(chunks, lookup).ok
    ensures UserIds(Enrich(chunks, lookup).users) == Flatten(chunks)
  {
    if chunks != [] {
      assert lookup(LookupEndpoint(chunks[0])).Some?;
      var data := lookup(LookupEndpoint(chunks[0])).value;
      assert AnswersExactly(chunks[1..], lookup) by {
        forall k | 0 <= k < |chunks[1..]|
          ensures lookup(LookupEndpoint(chunks[1..][k])).Some?
               && RecordIds(lookup(LookupEndpoint(chunks[1..][k])).value) == chunks[1..][k]
        {
          assert chunks[1..][k] == chunks[k + 1];
        }
      }
      EnrichPreservesOrder(chunks[1..], lookup);
      var rest := Enrich(chunks[1..], lookup);
      ToUsersIds(data);
      UserIdsAppend(ToUsers(data), rest.users);
    }
  }

  /**
   * Every lookup `collectAllUsers` sends over comma-free ids asks for one
   * non-empty chunk of at most 100 consecutive ids: request `k` asks for
   * ids [100k, min(100(k+1), |ids|)).
   */
  lemma LookupsCarryChunks(ids: seq<string>, lookup: string -> Option<seq<RawUser>>)
    requires CommaFree(ids)
    ensures var run := Enrich(Chunked(ids, LookupBatchSize), lookup);
      forall k :: 0 <= k < |run.requests| ==>
        && RequestedIds(run.requests[k]).Some?
        && 0 < |RequestedIds(run.requests[k]).value| <= LookupBatchSize
        && IsChunkAt(ids, LookupBatchSize, k, RequestedIds(run.requests[k]).value)
  {
    var chunks := Chunked(ids, LookupBatchSize);
    var run := Enrich(chunks, lookup);
    EnrichRequests(chunks, lookup);
    ChunkLengths(ids, LookupBatchSize);
    forall k | 0 <= k < |run.requests|
      ensures && RequestedIds(run.requests[k]).Some?
              && 0 < |RequestedIds(run.requests[k]).value| <= LookupBatchSize
              && IsChunkAt(ids, LookupBatchSize, k, RequestedIds(run.requests[k]).value)
    {
      assert LookedUp(run, chunks, lookup, k);
      ChunkAt(ids, LookupBatchSize, k);
      var c := chunks[k];
      assert CommaFree(c) by {
        forall i | 0 <= i < |c| ensures ',' !in c[i] {
          assert c[i] == ids[k * LookupBatchSize + i];
        }
      }
      RequestedIdsRoundTrip(c);
    }
  }

  /**
   * Against a server that answers every chunk exactly, enrichment succeeds
   * and yields one record per collected id, in the order the ids were
   * collected.
   */
  lemma UsersFollowIds(ids: seq<string>, lookup: string -> Option<seq<RawUser>>)
    requires AnswersExactly(Chunked(ids, LookupBatchSize), lookup)
    ensures Enrich(Chunked(ids, LookupBatchSize), lookup).ok
    ensures UserIds(Enrich(Chunked(ids, LookupBatchSize), lookup).users) == ids
    ensures |Enrich(Chunked(ids, LookupBatchSize), lookup).users| == |ids|
  {
    EnrichPreservesOrder(Chunked(ids, LookupBatchSize), lookup);
    FlattenChunked(ids, LookupBatchSize);
  }

  /** A request issued by `scrape`, in issue order. */
  datatype Request = ListFollowers(url: string) | LookupUsers(url: string)

  /** The listing URLs of a collection run for `handle`, one per cursor. */
  function ListingUrls(handle: string, cursors: seq<Option<string>>): seq<string>
  {
    seq(|cursors|, k requires 0 <= k < |cursors| => FollowersEndpoint(handle, cursors[k]))
  }

  lemma ListingUrlsSnoc(handle: string, cursors: seq<Option<string>>, cursor: Option<string>)
    ensures ListingUrls(handle, cursors + [cursor])
         == ListingUrls(handle, cursors) + [FollowersEndpoint(handle, cursor)]
  {
  }

  /** The request log of a collection run followed by an enrichment run. */
  function RequestLog(listings: seq<string>, lookups: seq<string>): seq<Request>
  {
    seq(|listings|, k requires 0 <= k < |listings| => ListFollowers(listings[k]))
      + seq(|lookups|, k requires 0 <= k < |lookups| => LookupUsers(lookups[k]))
  }

  /** The scraper for one account: the follower ids collected so far and the records resolved so far. */
  class Scraper {
    const twitterBearer: string
    const twitterHandle: string
    var ids: seq<string>
    var users: seq<User>

    constructor (twitterBearer: string, twitterHandle: string)
      ensures this.twitterBearer == twitterBearer && this.twitterHandle == twitterHandle
      ensures ids == [] && users == []
    {
      this.twitterBearer := twitterBearer;
      this.twitterHandle := twitterHandle;
      ids := [];
      users := [];
    }

    /**
     * `collectAllFollowers()`: the recursion on the cursor as a loop over
     * the server's pages. Returns whether every request was answered and the
     * URLs requested, in order.
     */
    method CollectAllFollowers(pages: seq<Page>) returns (ok: bool, requests: seq<string>)
      modifies this`ids
      ensures var run := Collect(old(ids), None, pages);
        && ids == run.ids && ok == run.ok
        && requests == ListingUrls(twitterHandle, run.cursors)
      ensures users == old(users)
    {
      ghost var run := Collect(ids, None, pages);
      ghost var cursors: seq<Option<string>> := [];
      var cursor: Option<string> := None;
      var i := 0;
      requests := [];
      while true
        invariant 0 <= i <= |pages|
        invariant requests == ListingUrls(twitterHandle, cursors)
        invariant var rest := Collect(ids, cursor, pages[i..]);
          run.ids == rest.ids && run.ok == rest.ok && run.cursors == cursors + rest.cursors
        decreases |pages| - i
      {
        ListingUrlsSnoc(twitterHandle, cursors, cursor);
        requests := requests + [FollowersEndpoint(twitterHandle, cursor)];
        if i == |pages| {
          // the request fails and the error aborts the collection
          assert pages[i..] == [];
          cursors := cursors + [cursor];
          ok := false;
          break;
        }
        var page := pages[i];
        CollectFrom(ids, cursor, pages, i);
        ids := ids + page.ids;
        if !ShouldContinue(page.nextCursorStr, |ids|) {
          cursors := cursors + [cursor];
          ok := true;
          break;
        }
        ConcatAssoc(cursors, [cursor], Collect(ids, Some(page.nextCursorStr), pages[i + 1..]).cursors);
        cursors := cursors + [cursor];
        cursor := Some(page.nextCursorStr);
        i := i + 1;
      }
    }

    /**
     * `collectAllUsers()`: one lookup per chunk of 100 ids, in chunk order,
     * appending the mapped records of each response in response order.
     */
    method CollectAllUsers(lookup: string -> Option<seq<RawUser>>) returns (ok: bool, requests: seq<string>)
      modifies this`users
      ensures var run := Enrich(Chunked(ids, LookupBatchSize), lookup);
        users == old(users) + run.users && ok == run.ok && requests == run.requests
      ensures ids == old(ids)
    {
      var chunkedIds := Chunk(ids, LookupBatchSize);
      ghost var run := Enrich(chunkedIds, lookup);
      ghost var users0 := users;
      ok, requests := true, [];
      var i := 0;
      while i < |chunkedIds|
        invariant 0 <= i <= |chunkedIds|
        invariant var rest := Enrich(chunkedIds[i..], lookup);
          && users0 + run.users == users + rest.users
          && run.ok == rest.ok && run.requests == requests + rest.requests
      {
        var url := LookupEndpoint(chunkedIds[i]);
        EnrichFrom(chunkedIds, lookup, i);
        ghost var next := Enrich(chunkedIds[i + 1..], lookup);
        ConcatAssoc(requests, [url], next.requests);
        requests := requests + [url];
        var response := lookup(url);
        if response.None? {
          // the request fails and the error aborts the enrichment
          assert users + [] == users;
          ok := false;
          break;
        }
        ghost var before := users;
        AppendUsers(response.value);
        ConcatAssoc(before, ToUsers(response.value), next.users);
        i := i + 1;
      }
      assert ok ==> chunkedIds[i..] == [] && users + [] == users;
    }

    /** The inner loop of `collectAllUsers`: map every record of one response and append it. */
    method AppendUsers(data: seq<RawUser>)
      modifies this`users
      ensures users == old(users) + ToUsers(data)
    {
      ghost var before := users;
      var j := 0;
      while j < |data|
        invariant 0 <= j <= |data|
        invariant users == before + ToUsers(data[..j])
      {
        ToUsersSnoc(data, j);
        users := users + [ToUser(data[j])];
        j := j + 1;
      }
      assert data[..j] == data;
    }

    /**
     * `scrape()`: collection runs to completion before the first lookup; the
     * lookups then chunk the ids collection ended with. A failed collection
     * aborts the run before any lookup.
     */
    method Scrape(pages: seq<Page>, lookup: string -> Option<seq<RawUser>>) returns (ok: bool, log: seq<Request>)
      modifies this
      ensures var c := Collect(old(ids), None, pages);
        && ids == c.ids
        && (c.ok ==>
              var e := Enrich(Chunked(c.ids, LookupBatchSize), lookup);
              && users == old(users) + e.users && ok == e.ok
              && log == RequestLog(ListingUrls(twitterHandle, c.cursors), e.requests))
        && (!c.ok ==>
              && users == old(users) && !ok
              && log == RequestLog(ListingUrls(twitterHandle, c.cursors), []))
    {
      var collected, listings := CollectAllFollowers(pages);
      if !collected {
        ok, log := false, RequestLog(listings, []);
        return;
      }
      var lookups;
      ok, lookups := CollectAllUsers(lookup);
      log := RequestLog(listings, lookups);
    }
  }
}
