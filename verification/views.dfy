/** The state-changing view actions of backend/api/views.py, performed in
    place on a backend that holds the database tables as fields. Each action
    takes the steps the view takes (look the row up, check, create, delete or
    update) and is proved to end in the state and reply that `FollowSpec` and
    `InteractionSpec` prescribe. */
module Views {
  import opened Common
  import opened Seqs
  import opened Models
  import opened FollowSpec
  import opened InteractionSpec

  /** A position found by a linear scan for the first request of a pair is `FirstIndex`. */
  lemma {:induction false} FirstIndexOfScan(reqs: seq<FriendRequest>, sender: UserId, receiver: UserId, k: nat)
    requires k <= |reqs|
    requires k < |reqs| ==> FromTo(reqs[k], sender, receiver)
    requires forall j :: 0 <= j < k ==> !FromTo(reqs[j], sender, receiver)
    ensures FirstIndex(reqs, sender, receiver) == k
  {
    if reqs != [] && k > 0 {
      assert !FromTo(reqs[0], sender, receiver);
      forall j | 0 <= j < k - 1 ensures !FromTo(reqs[1..][j], sender, receiver) {
        assert reqs[1..][j] == reqs[j + 1];
      }
      FirstIndexOfScan(reqs[1..], sender, receiver, k - 1);
    }
  }

  /** A position found by a linear scan for a primary key is `IndexOfId`. */
  lemma {:induction false} IndexOfIdOfScan(reqs: seq<FriendRequest>, id: RequestId, k: nat)
    requires k <= |reqs|
    requires k < |reqs| ==> reqs[k].id == id
    requires forall j :: 0 <= j < k ==> reqs[j].id != id
    ensures IndexOfId(reqs, id) == k
  {
    if reqs != [] && k > 0 {
      assert reqs[0].id != id;
      forall j | 0 <= j < k - 1 ensures reqs[1..][j].id != id {
        assert reqs[1..][j] == reqs[j + 1];
      }
      IndexOfIdOfScan(reqs[1..], id, k - 1);
    }
  }

  /** The database behind the API, one field per table. */
  class Backend {
    var users: set<UserId>
    var profiles: map<UserId, Profile>
    var follows: set<Edge>
    var requests: seq<FriendRequest>
    var nextRequestId: RequestId
    var posts: map<PostId, UserId>
    var likes: set<Like>
    var comments: map<CommentId, Comment>
    var stories: map<StoryId, UserId>
    var views: set<View>

    /** The tables as a value. */
    function Snapshot(): Tables
      reads this
    {
      Tables(users, profiles, follows, requests, nextRequestId, posts, likes, comments, stories, views)
    }

    constructor (t: Tables)
      ensures Snapshot() == t
    {
      users, profiles, follows := t.users, t.profiles, t.follows;
      requests, nextRequestId := t.requests, t.nextRequestId;
      posts, likes, comments := t.posts, t.likes, t.comments;
      stories, views := t.stories, t.views;
    }

    /** Position of the first request from `sender` to `receiver`, or `|requests|`. */
    method FindFirst(sender: UserId, receiver: UserId) returns (k: nat)
      ensures k == FirstIndex(requests, sender, receiver)
    {
      k := 0;
      while k < |requests| && !FromTo(requests[k], sender, receiver)
        invariant k <= |requests|
        invariant forall j :: 0 <= j < k ==> !FromTo(requests[j], sender, receiver)
      {
        k := k + 1;
      }
      FirstIndexOfScan(requests, sender, receiver, k);
    }

    /** Whether a pending request from `sender` to `receiver` exists. */
    method AnyPending(sender: UserId, receiver: UserId) returns (found: bool)
      ensures found == HasPending(requests, sender, receiver)
    {
      var i := 0;
      while i < |requests| && !(FromTo(requests[i], sender, receiver) && requests[i].status == Pending)
        invariant i <= |requests|
        invariant forall j :: 0 <= j < i ==> !(FromTo(requests[j], sender, receiver) && requests[j].status == Pending)
      {
        i := i + 1;
      }
      found := i < |requests|;
      if !found {
        forall r | r in requests ensures !(FromTo(r, sender, receiver) && r.status == Pending) {
          var j :| 0 <= j < |requests| && requests[j] == r;
        }
      }
    }

    /** Position of the request with primary key `id`, or `|requests|`. */
    method FindId(id: RequestId) returns (k: nat)
      ensures k == IndexOfId(requests, id)
    {
      k := 0;
      while k < |requests| && requests[k].id != id
        invariant k <= |requests|
        invariant forall j :: 0 <= j < k ==> requests[j].id != id
      {
        k := k + 1;
      }
      IndexOfIdOfScan(requests, id, k);
    }

    /** `FollowerViewSet.follow`. */
    method Follow(caller: UserId, target: UserId) returns (reply: FollowReply)
      modifies this
      ensures (Snapshot(), reply) == FollowSpec.Follow(old(Snapshot()), caller, target)
    {
      if target !in users {
        return NoSuchUser;
      }
      if target == caller {
        return CannotFollowSelf;
      }
      if Edge(caller, target) in follows {
        return AlreadyFollowing;
      }
      if target in profiles && profiles[target].isPrivate {
        var k := FindFirst(caller, target);
        var reverse := AnyPending(target, caller);
        if k < |requests| && requests[k].status == Pending {
          return RequestAlreadyPending;
        }
        if reverse {
          return TheyAlreadyRequested;
        }
        if k < |requests| {
          requests := requests[..k] + requests[k + 1..];
        }
        requests := requests + [FriendRequest(nextRequestId, caller, target, Pending)];
        nextRequestId := nextRequestId + 1;
        return RequestSent;
      }
      var created := Edge(caller, target) !in follows;
      follows := follows + {Edge(caller, target)};
      return Followed(created);
    }

    /** The requests that are not from `sender` to `receiver`, in order. */
    method RequestsNotFromTo(sender: UserId, receiver: UserId) returns (kept: seq<FriendRequest>)
      ensures kept == Filter(requests, NotFromTo(sender, receiver))
    {
      kept := [];
      var i := 0;
      while i < |requests|
        invariant i <= |requests|
        invariant kept == Filter(requests[..i], NotFromTo(sender, receiver))
      {
        assert requests[..i + 1] == requests[..i] + [requests[i]];
        FilterConcat(requests[..i], [requests[i]], NotFromTo(sender, receiver));
        assert [requests[i]][1..] == [];
        if !FromTo(requests[i], sender, receiver) {
          kept := kept + [requests[i]];
        }
        i := i + 1;
      }
      assert requests[..i] == requests;
    }

    /** `FollowerViewSet.unfollow`: deletes the edge, then every request from
        the caller to the target, keeping the other requests in order. */
    method Unfollow(caller: UserId, target: UserId)
      modifies this
      ensures Snapshot() == FollowSpec.Unfollow(old(Snapshot()), caller, target)
    {
      follows := follows - {Edge(caller, target)};
      requests := RequestsNotFromTo(caller, target);
    }

    /** Sets the status of the request at `k` to `s` (`req.status = …; req.save()`). */
    method Settle(k: nat, s: Status)
      requires k < |requests|
      modifies this
      ensures requests == old(requests)[k := old(requests)[k].(status := s)]
      ensures Snapshot() == old(Snapshot()).(requests := requests)
    {
      requests := requests[k := requests[k].(status := s)];
    }

    /** `FriendRequestViewSet.accept`. */
    method Accept(caller: UserId, id: RequestId) returns (reply: DecisionReply)
      modifies this
      ensures (Snapshot(), reply) == FollowSpec.Accept(old(Snapshot()), caller, id)
    {
      var k := FindId(id);
      if k == |requests| || (requests[k].sender != caller && requests[k].receiver != caller) {
        return RequestNotFound;
      }
      var r := requests[k];
      if r.receiver != caller {
        return NotReceiver;
      }
      if r.status != Pending {
        return NotPending;
      }
      assert Gate(Snapshot(), caller, id) == Some(k);
      Settle(k, Accepted);
      follows := follows + {Edge(r.sender, r.receiver)};
      follows := follows + {Edge(r.receiver, r.sender)};
      assert follows == old(follows) + {Edge(r.sender, r.receiver), Edge(r.receiver, r.sender)};
      return Decided(Accepted);
    }

    /** `FriendRequestViewSet.reject`. */
    method Reject(caller: UserId, id: RequestId) returns (reply: DecisionReply)
      modifies this
      ensures (Snapshot(), reply) == FollowSpec.Reject(old(Snapshot()), caller, id)
    {
      var k := FindId(id);
      if k == |requests| || (requests[k].sender != caller && requests[k].receiver != caller) {
        return RequestNotFound;
      }
      if requests[k].receiver != caller {
        return NotReceiver;
      }
      if requests[k].status != Pending {
        return NotPending;
      }
      assert Gate(Snapshot(), caller, id) == Some(k);
      Settle(k, Rejected);
      return Decided(Rejected);
    }

    /** `LikeViewSet.toggle`: get_or_create the like, and delete it when it existed. */
    method ToggleLike(caller: UserId, post: PostId) returns (reply: LikeReply)
      modifies this
      ensures (Snapshot(), reply) == InteractionSpec.ToggleLike(old(Snapshot()), caller, post)
    {
      if post !in posts {
        return PostNotFound;
      }
      if posts[post] != caller && Edge(caller, posts[post]) !in follows {
        return NotFollower;
      }
      var created := Like(post, caller) !in likes;
      likes := likes + {Like(post, caller)};
      if !created {
        likes := likes - {Like(post, caller)};
        assert likes == old(likes) - {Like(post, caller)};
        return Liked(false);
      }
      return Liked(true);
    }

    /** `CommentViewSet.perform_create`, after serializer validation. */
    method CreateComment(caller: UserId, post: Option<PostId>, parent: Option<CommentId>,
                         text: string, newId: CommentId) returns (reply: CommentReply)
      requires newId !in comments
      modifies this
      ensures (Snapshot(), reply) == InteractionSpec.CreateComment(old(Snapshot()), caller, post, parent, text, newId)
    {
      if !WellFormedComment(Snapshot(), post, parent, text) {
        return Invalid;
      }
      var p := post.value;
      if posts[p] != caller && Edge(caller, posts[p]) !in follows {
        return CommentForbidden;
      }
      if parent.Some? && comments[parent.value].post != p {
        return Invalid;
      }
      comments := comments[newId := Comment(p, caller, StoredText(text), parent)];
      return CommentCreated;
    }

    /** `StoryViewSet.mark_viewed`: get_or_create the view, then count the story's views. */
    method MarkViewed(caller: UserId, story: StoryId) returns (reply: ViewReply)
      modifies this
      ensures (Snapshot(), reply) == InteractionSpec.MarkViewed(old(Snapshot()), caller, story)
    {
      if story !in stories {
        return StoryNotFound;
      }
      if stories[story] == caller {
        return OwnStory;
      }
      var created := View(story, caller) !in views;
      views := views + {View(story, caller)};
      return Viewed(created, |ViewersOf(views, story)|);
    }
  }
}
