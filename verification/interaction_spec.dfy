/** What the post and story interactions of the backend do to the tables
    (LikeViewSet.toggle, CommentViewSet and StoryViewSet.mark_viewed in
    backend/api/views.py), as functions from the old tables to the new tables
    and the reply. `Views.Backend` performs the same steps in place. */
module InteractionSpec {
  import opened Common
  import opened Text
  import opened Models

  /** The gate shared by likes and comments: the caller wrote the post, or
      follows its author. */
  predicate MayInteract(t: Tables, caller: UserId, author: UserId)
  {
    author == caller || Edge(caller, author) in t.follows
  }

  /** Everything except the likes, comments and views tables is as before. */
  predicate SameRelationships(t: Tables, u: Tables)
  {
    && u.users == t.users && u.profiles == t.profiles && u.follows == t.follows
    && u.requests == t.requests && u.nextRequestId == t.nextRequestId
    && u.posts == t.posts && u.stories == t.stories
  }

  /** Replies of `toggle`. */
  datatype LikeReply =
    | PostNotFound
    | NotFollower
    | Liked(liked: bool)    // the `liked` field of the body
  {
    function Code(): int
    {
      match this
      case PostNotFound => 404
      case NotFollower => 403
      case Liked(_) => 200
    }
  }

  /** POST likes/{post}/toggle/ by `caller`. */
  function ToggleLike(t: Tables, caller: UserId, post: PostId): (res: (Tables, LikeReply))
    ensures res.0 == t.(likes := res.0.likes)
    ensures res.1.Code() != 200 ==> res.0 == t
    ensures res.1 == PostNotFound <==> post !in t.posts
    ensures res.1 == NotFollower <==> post in t.posts && !MayInteract(t, caller, t.posts[post])
    ensures res.1.Liked? ==>
      && (res.1.liked <==> Like(post, caller) !in t.likes)
      && (Like(post, caller) in res.0.likes <==> res.1.liked)
      && res.0.likes - {Like(post, caller)} == t.likes - {Like(post, caller)}
  {
    if post !in t.posts then (t, PostNotFound)
    else if !MayInteract(t, caller, t.posts[post]) then (t, NotFollower)
    else if Like(post, caller) in t.likes then
      (t.(likes := t.likes - {Like(post, caller)}), Liked(false))
    else
      (t.(likes := t.likes + {Like(post, caller)}), Liked(true))
  }

  /** Replies of comment creation. */
  datatype CommentReply =
    | Invalid            // 400: serializer validation or the parent check
    | CommentForbidden   // 403: neither the author nor a follower
    | CommentCreated
  {
    function Code(): int
    {
      match this
      case Invalid => 400
      case CommentForbidden => 403
      case CommentCreated => 201
    }
  }

  /** What the serializer accepts before `perform_create` runs: the post is
      given and exists, a given parent exists, and the text is not blank.
      `text` is a `TextField`, so the serializer's field strips it with
      Python's `strip`, refuses what is left empty, and refuses any text
      holding a NUL character. */
  predicate WellFormedComment(t: Tables, post: Option<PostId>, parent: Option<CommentId>, text: string)
  {
    && post.Some? && post.value in t.posts
    && (parent.Some? ==> parent.value in t.comments)
    && Trim(text, PySpace) != []
    && '\0' !in text
  }

  /** The text the serializer hands to `save`: stripped of surrounding whitespace. */
  function StoredText(text: string): (stored: string)
    ensures |stored| <= |text|
    ensures stored != [] ==> !PySpace(stored[0]) && !PySpace(stored[|stored| - 1])
    ensures stored == [] <==> forall i :: 0 <= i < |text| ==> PySpace(text[i])
  {
    Trim(text, PySpace)
  }

  /** POST comments/ by `caller`. `newId` is the UUID the database assigns. */
  function CreateComment(t: Tables, caller: UserId, post: Option<PostId>, parent: Option<CommentId>,
                         text: string, newId: CommentId): (res: (Tables, CommentReply))
    requires newId !in t.comments
    ensures res.0 == t.(comments := res.0.comments)
    ensures res.1.Code() != 201 ==> res.0 == t
    ensures res.1 == CommentForbidden <==>
      WellFormedComment(t, post, parent, text) && !MayInteract(t, caller, t.posts[post.value])
    ensures res.1 == CommentCreated <==>
      && WellFormedComment(t, post, parent, text)
      && MayInteract(t, caller, t.posts[post.value])
      && (parent.Some? ==> t.comments[parent.value].post == post.value)
    ensures res.1 == CommentCreated ==>
      && newId in res.0.comments && res.0.comments[newId] == Comment(post.value, caller, StoredText(text), parent)
      && res.0.comments[newId].text != []
      && res.0.comments.Keys == t.comments.Keys + {newId}
      && forall c :: c in t.comments ==> res.0.comments[c] == t.comments[c]
  {
    if !WellFormedComment(t, post, parent, text) then (t, Invalid)
    else if !MayInteract(t, caller, t.posts[post.value]) then (t, CommentForbidden)
    else if parent.Some? && t.comments[parent.value].post != post.value then (t, Invalid)
    else (t.(comments := t.comments[newId := Comment(post.value, caller, StoredText(text), parent)]), CommentCreated)
  }

  /** Replies of the comment list. */
  datatype CommentList =
    | ListPostNotFound
    | ListForbidden
    | Listed(ids: set<CommentId>)
  {
    function Code(): int
    {
      match this
      case ListPostNotFound => 404
      case ListForbidden => 403
      case Listed(_) => 200
    }
  }

  /** GET comments/[?post_id=…] by `caller`: with a post, its top-level
      comments (behind the same gate as creation); without one, the caller's
      own comments. An empty `post_id` is the same as none. */
  function ListComments(t: Tables, caller: UserId, postId: Option<PostId>): (res: CommentList)
    ensures res == ListPostNotFound <==> postId.Some? && postId.value !in t.posts
    ensures res == ListForbidden <==>
      postId.Some? && postId.value in t.posts && !MayInteract(t, caller, t.posts[postId.value])
    ensures res.Listed? && postId.Some? ==> forall c :: c in res.ids <==>
      c in t.comments && t.comments[c].post == postId.value && t.comments[c].parent.None?
    ensures res.Listed? && postId.None? ==> forall c :: c in res.ids <==>
      c in t.comments && t.comments[c].user == caller
  {
    match postId
    case Some(p) =>
      if p !in t.posts then ListPostNotFound
      else if !MayInteract(t, caller, t.posts[p]) then ListForbidden
      else Listed(set c | c in t.comments && t.comments[c].post == p && t.comments[c].parent.None?)
    case None =>
      Listed(set c | c in t.comments && t.comments[c].user == caller)
  }

  /** Replies of `mark_viewed`. */
  datatype ViewReply =
    | StoryNotFound
    | OwnStory
    | Viewed(isNew: bool, total: nat)
  {
    function Code(): int
    {
      match this
      case StoryNotFound => 404
      case OwnStory => 400
      case Viewed(_, _) => 200
    }
  }

  /** The viewers recorded for `story`. */
  function ViewersOf(views: set<View>, story: StoryId): set<UserId>
  {
    set v | v in views && v.story == story :: v.viewer
  }

  /** POST stories/{story}/mark_viewed/ by `caller`. */
  function MarkViewed(t: Tables, caller: UserId, story: StoryId): (res: (Tables, ViewReply))
    ensures res.0 == t.(views := res.0.views)
    ensures res.1.Code() != 200 ==> res.0 == t
    ensures res.1 == StoryNotFound <==> story !in t.stories
    ensures res.1 == OwnStory <==> story in t.stories && t.stories[story] == caller
    ensures res.1.Viewed? ==>
      && res.0.views == t.views + {View(story, caller)}
      && (res.1.isNew <==> View(story, caller) !in t.views)
      && res.1.total == |ViewersOf(res.0.views, story)|
      && caller in ViewersOf(res.0.views, story)
  {
    if story !in t.stories then (t, StoryNotFound)
    else if t.stories[story] == caller then (t, OwnStory)
    else
      var views := t.views + {View(story, caller)};
      (t.(views := views), Viewed(View(story, caller) !in t.views, |ViewersOf(views, story)|))
  }
}
