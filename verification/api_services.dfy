/** The client's API slice (forntend/instagram/src/store/api/services.ts):
    the tag each query provides, the tag types each mutation invalidates,
    the URL builders of the post queries and `prepareHeaders`. The cache
    engine itself belongs to the library; it is modelled abstractly as a map
    from query to entry, where invalidating a tag type marks stale every entry
    that provides a tag of that type. */
module ApiServices {
  import opened Common
  import opened Text

  /** The declared `tagTypes`. */
  datatype TagType =
    | Auth | Me | Posts | Comments | Stories | Chat
    | Followers | Following | UserProfile | FriendRequests | Search

  datatype TagId = StrId(s: string) | NumId(n: int)

  /** A provided tag: a bare type, or `{type, id}`. */
  datatype Tag = Tag(kind: TagType, id: Option<TagId>)

  datatype Mutation =
    | Signup | Login | Logout
    | UpdateProfile | UploadProfilePicture
    | FollowUser | UnfollowUser
    | SendFriendRequest | AcceptFriendRequest | RejectFriendRequest
    | UpdatePrivacy

  /** A cached query, with the argument it was called with. */
  datatype Query =
    | GetMe
    | GetUserProfileByUsername(username: string)
    | GetUser(userId: int)
    | GetFollowers(ofUser: int)
    | GetFollowing(ofUser: int)
    | SearchUsers(q: string)
    | PendingRequests | SentRequests | Friends
    | GetPosts(page: Option<int>, limit: Option<int>)
    | GetUserPosts(postsOf: Option<int>, postsLimit: Option<int>)

  /** `invalidatesTags` of every mutation. */
  function Invalidates(m: Mutation): set<TagType>
  {
    match m
    case Signup => {Auth}
    case Login => {Auth}
    case Logout => {Auth, Me, UserProfile}
    case UpdateProfile => {Me, UserProfile}
    case UploadProfilePicture => {Me, UserProfile}
    case FollowUser => {Followers, Following, UserProfile, FriendRequests}
    case UnfollowUser => {Followers, Following, UserProfile, FriendRequests}
    case SendFriendRequest => {FriendRequests}
    case AcceptFriendRequest => {FriendRequests, Followers, Following}
    case RejectFriendRequest => {FriendRequests}
    case UpdatePrivacy => {UserProfile, Me}
  }

  function Bare(k: TagType): Tag
  {
    Tag(k, None)
  }

  /** `{type: 'Posts', id}` for every returned post, in order. */
  function PostTags(postIds: seq<string>): (ts: seq<Tag>)
    ensures |ts| == |postIds|
    ensures forall i :: 0 <= i < |ts| ==> ts[i] == Tag(Posts, Some(StrId(postIds[i])))
  {
    if postIds == [] then [] else [Tag(Posts, Some(StrId(postIds[0])))] + PostTags(postIds[1..])
  }

  /** `providesTags` of every query; `result` holds the ids of the returned
      posts for the two post queries and is `None` when there is no result. */
  function Provides(q: Query, result: Option<seq<string>>): (ts: seq<Tag>)
    ensures q.GetPosts? || q.GetUserPosts? ==> |ts| >= 1 && ts[0] == Bare(Posts)
    ensures (q.GetPosts? || q.GetUserPosts?) && result.None? ==> ts == [Bare(Posts)]
    ensures q.GetPosts? && result.Some? ==> ts == [Bare(Posts)] + PostTags(result.value)
    ensures q.GetUserPosts? && result.Some? ==>
      (ts[..|ts| - 1] == [Bare(Posts)] + PostTags(result.value)
       && ts[|ts| - 1] == Tag(UserProfile, Some(ProfileTagId(q.postsOf))))
    ensures q.SearchUsers? ==> ts == []
  {
    match q
    case GetMe => [Bare(Me), Bare(Auth)]
    case GetUserProfileByUsername(username) => [Tag(UserProfile, Some(StrId(username)))]
    case GetUser(_) => [Bare(UserProfile)]
    case GetFollowers(_) => [Bare(Followers)]
    case GetFollowing(_) => [Bare(Following)]
    case SearchUsers(_) => []
    case PendingRequests => [Bare(FriendRequests)]
    case SentRequests => [Bare(FriendRequests)]
    case Friends => [Bare(FriendRequests)]
    case GetPosts(_, _) =>
      if result.None? then [Bare(Posts)] else [Bare(Posts)] + PostTags(result.value)
    case GetUserPosts(userId, _) =>
      if result.None? then [Bare(Posts)]
      else [Bare(Posts)] + PostTags(result.value) + [Tag(UserProfile, Some(ProfileTagId(userId)))]
  }

  /** `arg.userId || 'ME'`: a missing or zero id becomes 'ME'. */
  function ProfileTagId(userId: Option<int>): (id: TagId)
    ensures id == StrId("ME") <==> userId.None? || userId.value == 0
  {
    if userId.None? || userId.value == 0 then StrId("ME") else NumId(userId.value)
  }

  /** The types an entry's tags mention. */
  function KindsOf(tags: seq<Tag>): (ks: set<TagType>)
    ensures forall k :: k in ks <==> exists i :: 0 <= i < |tags| && tags[i].kind == k
  {
    if tags == [] then {}
    else
      var rest := KindsOf(tags[1..]);
      assert forall i :: 0 < i < |tags| ==> tags[i] == tags[1..][i - 1];
      {tags[0].kind} + rest
  }

  /** A cached result: the tags it provided, and whether it must be refetched. */
  datatype Entry = Entry(tags: seq<Tag>, stale: bool)

  type Cache = map<Query, Entry>

  /** The cache after a query `q` stored its result: a fresh entry with the
      tags `providesTags` declares. */
  function Store(c: Cache, q: Query, result: Option<seq<string>>): (d: Cache)
    ensures d.Keys == c.Keys + {q}
    ensures d[q] == Entry(Provides(q, result), false)
  {
    c[q := Entry(Provides(q, result), false)]
  }

  /** Invalidating tag types: every entry that provides one of them becomes
      stale; the other entries keep their state. */
  function Invalidate(c: Cache, types: set<TagType>): (d: Cache)
    ensures d.Keys == c.Keys
    ensures forall q :: q in c ==>
      (d[q].tags == c[q].tags && (d[q].stale <==> c[q].stale || KindsOf(c[q].tags) * types != {}))
  {
    map q | q in c :: Entry(c[q].tags, c[q].stale || KindsOf(c[q].tags) * types != {})
  }

  /** A mutation's effect on the cache once it completes. */
  function AfterMutation(c: Cache, m: Mutation): Cache
  {
    Invalidate(c, Invalidates(m))
  }

  /** The profile fields of a user, as `UserSerializer` nests them under
      `profile`; each may be absent or null. */
  datatype ProfileFields = ProfileFields(fullName: Option<string>, bio: Option<string>, isPrivate: Option<bool>)

  /** The `getMe` result: the `user` object of the `auth/me/` answer, whose
      `profile` is an object of its own. */
  datatype MeUser = MeUser(id: int, username: string, profile: Option<ProfileFields>)

  /** What awaiting `mutation(arg).unwrap()` gives a screen: success, or the
      thrown error with its optional `data.error` field. */
  datatype MutationOutcome = Fulfilled | Rejected(dataError: Option<string>)

  /** Invalidating the same types twice is invalidating them once. */
  lemma InvalidateIdempotent(c: Cache, types: set<TagType>)
    ensures Invalidate(Invalidate(c, types), types) == Invalidate(c, types)
  {
  }

  /** Two invalidations in a row are one invalidation of both sets. */
  lemma InvalidateCompose(c: Cache, a: set<TagType>, b: set<TagType>)
    ensures Invalidate(Invalidate(c, a), b) == Invalidate(c, a + b)
  {
    var lhs, rhs := Invalidate(Invalidate(c, a), b), Invalidate(c, a + b);
    forall q | q in c ensures lhs[q] == rhs[q] {
      assert KindsOf(c[q].tags) * (a + b) == KindsOf(c[q].tags) * a + KindsOf(c[q].tags) * b;
    }
  }

  /** After `logout`, a cached `getMe` result is stale. */
  lemma LogoutStalesMe(c: Cache, result: Option<seq<string>>)
    ensures AfterMutation(Store(c, GetMe, result), Logout)[GetMe].stale
  {
    var d := Store(c, GetMe, result);
    assert d[GetMe].tags[0].kind == Me;
    assert Me in KindsOf(d[GetMe].tags) * Invalidates(Logout);
  }

  /** `sendFriendRequest` leaves the follower and following lists as they were. */
  lemma SendRequestKeepsFollowLists(c: Cache, id: int, result: Option<seq<string>>)
    ensures var d := Store(Store(c, GetFollowers(id), result), GetFollowing(id), result);
      && !AfterMutation(d, SendFriendRequest)[GetFollowers(id)].stale
      && !AfterMutation(d, SendFriendRequest)[GetFollowing(id)].stale
  {
    var d := Store(Store(c, GetFollowers(id), result), GetFollowing(id), result);
    assert KindsOf(d[GetFollowers(id)].tags) == {Followers};
    assert KindsOf(d[GetFollowing(id)].tags) == {Following};
  }

  /** `acceptFriendRequest`, unlike `sendFriendRequest`, refetches both lists. */
  lemma AcceptStalesFollowLists(c: Cache, id: int, result: Option<seq<string>>)
    ensures var d := Store(Store(c, GetFollowers(id), result), GetFollowing(id), result);
      && AfterMutation(d, AcceptFriendRequest)[GetFollowers(id)].stale
      && AfterMutation(d, AcceptFriendRequest)[GetFollowing(id)].stale
  {
    var d := Store(Store(c, GetFollowers(id), result), GetFollowing(id), result);
    assert d[GetFollowers(id)].tags[0].kind == Followers;
    assert Followers in KindsOf(d[GetFollowers(id)].tags) * Invalidates(AcceptFriendRequest);
    assert d[GetFollowing(id)].tags[0].kind == Following;
    assert Following in KindsOf(d[GetFollowing(id)].tags) * Invalidates(AcceptFriendRequest);
  }

  /** A search result is never made stale by any mutation. */
  lemma SearchNeverInvalidated(c: Cache, q: string, result: Option<seq<string>>, m: Mutation)
    ensures !AfterMutation(Store(c, SearchUsers(q), result), m)[SearchUsers(q)].stale
  {
    assert KindsOf(Store(c, SearchUsers(q), result)[SearchUsers(q)].tags) == {};
  }

  /** Every profile edit refetches the viewer's own data and every profile. */
  lemma ProfileEditsStaleMe(c: Cache, m: Mutation, username: string, result: Option<seq<string>>)
    requires m in {UpdateProfile, UploadProfilePicture, UpdatePrivacy}
    ensures var d := Store(Store(c, GetMe, result), GetUserProfileByUsername(username), result);
      && AfterMutation(d, m)[GetMe].stale
      && AfterMutation(d, m)[GetUserProfileByUsername(username)].stale
  {
    var d := Store(Store(c, GetMe, result), GetUserProfileByUsername(username), result);
    assert d[GetMe].tags[0].kind == Me;
    assert Me in KindsOf(d[GetMe].tags) * Invalidates(m);
    assert d[GetUserProfileByUsername(username)].tags[0].kind == UserProfile;
    assert UserProfile in KindsOf(d[GetUserProfileByUsername(username)].tags) * Invalidates(m);
  }

  /** The URL of `getPosts`: page defaults to 1 and limit to 10 when omitted. */
  function FeedUrl(page: Option<int>, limit: Option<int>): (url: string)
    ensures "posts/feed/?page=" <= url
  {
    "posts/feed/?page=" + IntToString(page.GetOr(1)) + "&limit=" + IntToString(limit.GetOr(10))
  }

  const UserPostsPrefix: string := "posts/user/"
  const MyPostsPrefix: string := "posts/my-posts/?limit="

  /** The URL of `getUserPosts`: another user's posts when `userId` is
      given and non-zero, the caller's own otherwise; limit defaults to 30. */
  function UserPostsUrl(userId: Option<int>, limit: Option<int>): (url: string)
    ensures UserPostsPrefix <= url <==> userId.Some? && userId.value != 0
    ensures userId.None? || userId.value == 0 ==> url == MyPostsPrefix + IntToString(limit.GetOr(30))
  {
    if userId.Some? && userId.value != 0 then
      UserPostsPrefix + IntToString(userId.value) + "/?limit=" + IntToString(limit.GetOr(30))
    else
      var url := MyPostsPrefix + IntToString(limit.GetOr(30));
      assert url[6] != UserPostsPrefix[6];
      url
  }

  /** Omitting the page or the limit is the same as passing the default. */
  lemma FeedDefaults(page: Option<int>, limit: Option<int>)
    ensures FeedUrl(None, limit) == FeedUrl(Some(1), limit)
    ensures FeedUrl(page, None) == FeedUrl(page, Some(10))
  {
  }

  /** The page and the limit, or their defaults, can be read back from the
      feed URL. */
  lemma FeedUrlShape(page: Option<int>, limit: Option<int>)
    ensures var url := FeedUrl(page, limit);
      var prefix := "posts/feed/?page=";
      var pageText := IntToString(page.GetOr(1));
      && |prefix| + |pageText| <= |url|
      && url[|prefix|..|prefix| + |pageText|] == pageText
      && url[|prefix| + |pageText|..] == "&limit=" + IntToString(limit.GetOr(10))
  {
    var prefix, pageText := "posts/feed/?page=", IntToString(page.GetOr(1));
    var rest := "&limit=" + IntToString(limit.GetOr(10));
    var url := FeedUrl(page, limit);
    assert url == (prefix + pageText) + rest;
    assert (prefix + pageText)[|prefix|..] == pageText;
  }

  /** The user id and the limit can be read back from the URL of another
      user's posts. */
  lemma UserPostsUrlShape(userId: int, limit: Option<int>)
    requires userId != 0
    ensures var url := UserPostsUrl(Some(userId), limit);
      var idText := IntToString(userId);
      && url[|UserPostsPrefix|..|UserPostsPrefix| + |idText|] == idText
      && url[|UserPostsPrefix| + |idText|..] == "/?limit=" + IntToString(limit.GetOr(30))
  {
  }

  /** The request headers, as `prepareHeaders` fills them in place. Header
      names are compared exactly here; the fetch `Headers` object, and the
      server's `request.headers`, ignore case, which makes no difference as
      long as both sides spell the name `X-Session-ID`. */
  class Headers {
    var entries: map<string, string>

    constructor (entries: map<string, string>)
      ensures this.entries == entries
    {
      this.entries := entries;
    }

    /** `prepareHeaders` with the device storage `storage`. */
    method Prepare(storage: map<string, string>)
      modifies this
      ensures entries == Prepared(old(entries), storage)
    {
      if "session_id" in storage && storage["session_id"] != "" {
        entries := entries["X-Session-ID" := storage["session_id"]];
      }
    }
  }

  /** The headers after `prepareHeaders`: the stored session id, when there
      is a non-empty one, under `X-Session-ID`; otherwise unchanged. */
  function Prepared(h: map<string, string>, storage: map<string, string>): (r: map<string, string>)
    ensures "session_id" in storage && storage["session_id"] != "" ==>
      "X-Session-ID" in r && r["X-Session-ID"] == storage["session_id"]
      && forall k :: k in h && k != "X-Session-ID" ==> k in r && r[k] == h[k]
    ensures !("session_id" in storage && storage["session_id"] != "") ==> r == h
    ensures r.Keys == h.Keys || r.Keys == h.Keys + {"X-Session-ID"}
  {
    if "session_id" in storage && storage["session_id"] != "" then h["X-Session-ID" := storage["session_id"]]
    else h
  }
}
