/**
 * The two request URLs the scraper builds: the paginated followers-ids
 * listing (`generateFollowersEndpoint`) and the batched users lookup, whose
 * `user_id` parameter is the chunk joined with commas. Each comes with the
 * parser a server would apply, and a round-trip lemma.
 */
module Endpoints {
  import opened Wrappers

  const FollowersIdsUrl := "https://api.twitter.com/1.1/followers/ids.json?screen_name="
  const StringifyIdsFlag := "&stringify_ids=true"
  const CursorParam := "&cursor="
  const UsersLookupUrl := "https://api.twitter.com/1.1/users/lookup.json?user_id="
  const IncludeEntitiesFlag := "&include_entities=false"

  /** The listing URL for `handle` without a cursor. */
  function BaseFollowersEndpoint(handle: string): string
  {
    FollowersIdsUrl + handle + StringifyIdsFlag
  }

  /** TypeScript truthiness of an optional string: present and not empty. */
  predicate IsTruthy(token: Option<string>)
  {
    token.Some? && token.value != ""
  }

  /**
   * `generateFollowersEndpoint(nextToken?)`: the base URL, followed by the
   * cursor parameter only when the token is truthy.
   */
  function FollowersEndpoint(handle: string, nextToken: Option<string>): (url: string)
    ensures BaseFollowersEndpoint(handle) <= url
    ensures url == BaseFollowersEndpoint(handle) <==> !IsTruthy(nextToken)
  {
    var base := BaseFollowersEndpoint(handle);
    if IsTruthy(nextToken) then base + CursorParam + nextToken.value else base
  }

  /** The cursor a listing request for `handle` carries, if any. */
  function CursorOf(handle: string, url: string): Option<string>
  {
    var head := BaseFollowersEndpoint(handle) + CursorParam;
    if |head| < |url| && url[..|head|] == head then Some(url[|head|..]) else None
  }

  /** A listing request carries exactly the truthy token it was built from, and nothing otherwise. */
  lemma CursorRoundTrip(handle: string, nextToken: Option<string>)
    ensures CursorOf(handle, FollowersEndpoint(handle, nextToken))
         == if IsTruthy(nextToken) then nextToken else None
  {
    var head := BaseFollowersEndpoint(handle) + CursorParam;
    var url := FollowersEndpoint(handle, nextToken);
    if IsTruthy(nextToken) {
      assert url == head + nextToken.value;
      assert url[..|head|] == head && url[|head|..] == nextToken.value;
    } else {
      assert |url| < |head|;
    }
  }

  /** Two listing requests are equal exactly when their tokens agree after truthiness. */
  lemma FollowersEndpointInjective(handle: string, t1: Option<string>, t2: Option<string>)
    ensures FollowersEndpoint(handle, t1) == FollowersEndpoint(handle, t2)
        <==> (if IsTruthy(t1) then t1 else None) == (if IsTruthy(t2) then t2 else None)
  {
    CursorRoundTrip(handle, t1);
    CursorRoundTrip(handle, t2);
  }

  /** `Array.prototype.join(",")` on a list of strings. */
  function Join(parts: seq<string>): string
  {
    if parts == [] then ""
    else if |parts| == 1 then parts[0]
    else parts[0] + "," + Join(parts[1..])
  }

  /** `String.prototype.split(",")`: always at least one (possibly empty) field. */
  function Split(s: string): (fields: seq<string>)
    ensures |fields| >= 1
  {
    if s == "" then [""]
    else
      var rest := Split(s[1..]);
      if s[0] == ',' then [""] + rest else [[s[0]] + rest[0]] + rest[1..]
  }

  /** No id contains the separator. */
  predicate CommaFree(parts: seq<string>)
  {
    forall i :: 0 <= i < |parts| ==> ',' !in parts[i]
  }

  lemma {:induction false} SplitField(x: string, rest: string)
    requires ',' !in x
    ensures Split(x) == [x]
    ensures Split(x + "," + rest) == [x] + Split(rest)
    decreases |x|
  {
    if x == "" {
      assert ("" + "," + rest)[1..] == rest;
    } else {
      SplitField(x[1..], rest);
      assert (x + "," + rest)[1..] == x[1..] + "," + rest;
      assert [x[0]] + x[1..] == x;
    }
  }

  /** Splitting a non-empty join of comma-free ids gives the ids back. */
  lemma {:induction false} SplitJoin(parts: seq<string>)
    requires |parts| > 0 && CommaFree(parts)
    ensures Split(Join(parts)) == parts
    decreases |parts|
  {
    if |parts| == 1 {
      SplitField(parts[0], "");
    } else {
      assert CommaFree(parts[1..]) by {
        forall i | 0 <= i < |parts[1..]| ensures ',' !in parts[1..][i] {
          assert parts[1..][i] == parts[i + 1];
        }
      }
      SplitJoin(parts[1..]);
      SplitField(parts[0], Join(parts[1..]));
      assert [parts[0]] + parts[1..] == parts;
    }
  }

  /** The users-lookup URL for one chunk of ids. */
  function LookupEndpoint(chunk: seq<string>): string
  {
    UsersLookupUrl + Join(chunk) + IncludeEntitiesFlag
  }

  /** The ids a users-lookup request asks for, if `url` has that shape. */
  function RequestedIds(url: string): Option<seq<string>>
  {
    var p, q := |UsersLookupUrl|, |IncludeEntitiesFlag|;
    if p + q <= |url| && url[..p] == UsersLookupUrl && url[|url| - q..] == IncludeEntitiesFlag
    then Some(Split(url[p..|url| - q]))
    else None
  }

  /** A lookup request for a non-empty chunk of comma-free ids asks for exactly that chunk. */
  lemma RequestedIdsRoundTrip(chunk: seq<string>)
    requires |chunk| > 0 && CommaFree(chunk)
    ensures RequestedIds(LookupEndpoint(chunk)) == Some(chunk)
  {
    var url := LookupEndpoint(chunk);
    var p, q := |UsersLookupUrl|, |IncludeEntitiesFlag|;
    assert url[..p] == UsersLookupUrl;
    assert url[|url| - q..] == IncludeEntitiesFlag;
    assert url[p..|url| - q] == Join(chunk);
    SplitJoin(chunk);
  }
}
