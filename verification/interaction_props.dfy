/** Properties of likes, comments and story views that relate several calls. */
module InteractionProps {
  import opened Common
  import opened Text
  import opened Models
  import opened InteractionSpec

  /** Two toggles by the same user on the same post restore the likes table,
      and the two replies disagree. */
  lemma ToggleTwice(t: Tables, caller: UserId, post: PostId)
    requires ToggleLike(t, caller, post).1.Code() == 200
    ensures var (once, r1) := ToggleLike(t, caller, post);
      var (twice, r2) := ToggleLike(once, caller, post);
      && twice == t
      && r1.Liked? && r2.Liked? && r1.liked != r2.liked
  {
    var (once, r1) := ToggleLike(t, caller, post);
    if r1.liked {
      assert once.likes - {Like(post, caller)} == t.likes;
    } else {
      assert once.likes + {Like(post, caller)} == t.likes;
    }
  }

  /** Marking a story viewed twice: the second call adds nothing, reports the
      view as not new, and reports the same total. */
  lemma MarkViewedIdempotent(t: Tables, caller: UserId, story: StoryId)
    requires MarkViewed(t, caller, story).1.Code() == 200
    ensures var (once, r1) := MarkViewed(t, caller, story);
      var (twice, r2) := MarkViewed(once, caller, story);
      && twice == once
      && r2 == Viewed(false, r1.total)
  {
    var once := MarkViewed(t, caller, story).0;
    assert once.views + {View(story, caller)} == once.views;
  }

  /** A new top-level comment shows up in its post's comment list for anyone
      allowed to create it; a reply never does. */
  lemma CreatedCommentListed(t: Tables, caller: UserId, post: PostId, parent: Option<CommentId>,
                             text: string, newId: CommentId)
    requires newId !in t.comments
    requires CreateComment(t, caller, Some(post), parent, text, newId).1 == CommentCreated
    ensures var after := CreateComment(t, caller, Some(post), parent, text, newId).0;
      var listing := ListComments(after, caller, Some(post));
      && listing.Listed?
      && (newId in listing.ids <==> parent.None?)
      && newId in ListComments(after, caller, None).ids
  {
    var after := CreateComment(t, caller, Some(post), parent, text, newId).0;
    assert after.comments[newId] == Comment(post, caller, StoredText(text), parent);
  }

  /** Text made only of whitespace, or holding a NUL character, is refused
      whatever else the request carries, and surrounding whitespace is not
      stored. */
  lemma BlankCommentRefused(t: Tables, caller: UserId, post: Option<PostId>, parent: Option<CommentId>,
                            newId: CommentId)
    requires newId !in t.comments
    ensures CreateComment(t, caller, post, parent, " \t\n", newId) == (t, Invalid)
    ensures CreateComment(t, caller, post, parent, "a\0", newId) == (t, Invalid)
    ensures StoredText(" hi ") == "hi"
  {
    assert Trim(" \t\n", PySpace) == [];
    var s := " hi ";
    assert Lead(s, PySpace) == 1 && Trail(s, PySpace) == 1;
  }

  /** Whoever may create a comment on a post may also list the post's comments. */
  lemma CommentersMayList(t: Tables, caller: UserId, post: PostId, parent: Option<CommentId>,
                          text: string, newId: CommentId)
    requires newId !in t.comments
    requires CreateComment(t, caller, Some(post), parent, text, newId).1 != CommentForbidden
    requires WellFormedComment(t, Some(post), parent, text)
    ensures ListComments(t, caller, Some(post)).Listed?
  {
  }
}
