/** The database tables of the backend (backend/api/models.py) as values.
    Django's ORM is only storage here: a table with a `unique_together`
    constraint is a set of its key tuples, the friend-request table (which has
    no such constraint) is a list ordered by primary key. UUID and integer
    primary keys alike are opaque natural numbers. */
module Models {
  import opened Common
  import opened Seqs

  type UserId = nat
  type PostId = nat
  type CommentId = nat
  type StoryId = nat
  type RequestId = nat

  /** `FriendRequest.status`: exactly the three STATUS_CHOICES; a new request is pending. */
  datatype Status = Pending | Accepted | Rejected

  /** A `Follower` row; the table is a set because of unique_together (follower, followed). */
  datatype Edge = Edge(follower: UserId, followed: UserId)

  /** A `FriendRequest` row. Nothing makes (sender, receiver) unique. */
  datatype FriendRequest = FriendRequest(id: RequestId, sender: UserId, receiver: UserId, status: Status)

  /** The `UserProfile` columns the core reads. */
  datatype Profile = Profile(fullName: string, bio: string, isPrivate: bool)

  /** A `Like` row; unique_together (post, user). */
  datatype Like = Like(post: PostId, user: UserId)

  /** A `Comment` row (its own id is the key of the comment map). */
  datatype Comment = Comment(post: PostId, user: UserId, text: string, parent: Option<CommentId>)

  /** A `StoryView` row; unique_together (story, viewer). */
  datatype View = View(story: StoryId, viewer: UserId)

  /** The whole database. `posts` and `stories` map each row to its author;
      `nextRequestId` is the auto-increment counter of the request table. */
  datatype Tables = Tables(
    users: set<UserId>,
    profiles: map<UserId, Profile>,
    follows: set<Edge>,
    requests: seq<FriendRequest>,
    nextRequestId: RequestId,
    posts: map<PostId, UserId>,
    likes: set<Like>,
    comments: map<CommentId, Comment>,
    stories: map<StoryId, UserId>,
    views: set<View>)

  predicate IdBefore(a: FriendRequest, b: FriendRequest)
  {
    a.id < b.id
  }

  /** What the database keeps true of the request table: ids grow with
      insertion order (so list order is primary-key order) and stay below
      the auto-increment counter. */
  ghost predicate WellFormed(t: Tables)
  {
    && Pairwise(t.requests, IdBefore)
    && forall i :: 0 <= i < |t.requests| ==> t.requests[i].id < t.nextRequestId
  }

  /** Seconds in the default story lifetime of 24 hours. */
  const StoryLifetime: int := 24 * 60 * 60

  /** A `Story` row as `Story.save` sees it; time is an integer count of seconds. */
  class Story {
    const id: StoryId
    const author: UserId
    var expiresAt: Option<int>

    constructor (id: StoryId, author: UserId, expiresAt: Option<int>)
      ensures this.id == id && this.author == author && this.expiresAt == expiresAt
    {
      this.id := id;
      this.author := author;
      this.expiresAt := expiresAt;
    }

    /** Fills in the default expiry when none is set; an existing expiry is kept. */
    method Save(now: int)
      modifies this
      ensures old(expiresAt).None? ==> expiresAt == Some(now + StoryLifetime)
      ensures old(expiresAt).Some? ==> expiresAt == old(expiresAt)
    {
      if expiresAt.None? {
        expiresAt := Some(now + StoryLifetime);
      }
    }
  }
}
