/** What the follow and friend-request actions of the backend
    (FollowerViewSet and FriendRequestViewSet in backend/api/views.py) do to
    the tables, as functions from the old tables to the new tables and the
    reply. `Views.Backend` performs the same steps in place. */
module FollowSpec {
  import opened Common
  import opened Seqs
  import opened Models

  /** Replies of `follow`. */
  datatype FollowReply =
    | NoSuchUser                 // get_object_or_404 on the target
    | CannotFollowSelf
    | AlreadyFollowing           // the pre-check found an edge
    | RequestAlreadyPending
    | TheyAlreadyRequested
    | RequestSent
    | Followed(created: bool)    // 'Now following' or 'Already following'
  {
    function Code(): int
    {
      match this
      case NoSuchUser => 404
      case CannotFollowSelf => 400
      case _ => 200
    }

    /** The `sent` field of the reply body, on the replies that carry one. */
    function Sent(): Option<bool>
    {
      match this
      case RequestSent => Some(true)
      case AlreadyFollowing => Some(false)
      case RequestAlreadyPending => Some(false)
      case TheyAlreadyRequested => Some(false)
      case _ => None
    }
  }

  /** Replies of `accept` and `reject`. */
  datatype DecisionReply =
    | RequestNotFound            // get_object: no such id among the caller's requests
    | NotReceiver
    | NotPending
    | Decided(status: Status)
  {
    function Code(): int
    {
      match this
      case RequestNotFound => 404
      case NotReceiver => 403
      case NotPending => 400
      case Decided(_) => 200
    }
  }

  /** The target has a profile and it is private (`profile and profile.is_private`). */
  predicate IsPrivate(t: Tables, u: UserId)
  {
    u in t.profiles && t.profiles[u].isPrivate
  }

  predicate FromTo(r: FriendRequest, sender: UserId, receiver: UserId)
  {
    r.sender == sender && r.receiver == receiver
  }

  predicate DistinctPair(a: FriendRequest, b: FriendRequest)
  {
    a.sender != b.sender || a.receiver != b.receiver
  }

  /** At most one request per ordered (sender, receiver) pair. */
  ghost predicate OnePerPair(reqs: seq<FriendRequest>)
  {
    Pairwise(reqs, DistinctPair)
  }

  /** No two users have pending requests to each other, and nobody has a
      pending request to themselves. */
  ghost predicate NoCrossedPending(reqs: seq<FriendRequest>)
  {
    forall a, b :: a in reqs && b in reqs && a.status == Pending && b.status == Pending
      ==> !FromTo(b, a.receiver, a.sender)
  }

  /** The invariant the relationship actions keep. */
  ghost predicate Consistent(t: Tables)
  {
    WellFormed(t) && OnePerPair(t.requests) && NoCrossedPending(t.requests)
  }

  /** Everything except the follow and request tables is as before. */
  predicate SameOtherTables(t: Tables, u: Tables)
  {
    && u.users == t.users && u.profiles == t.profiles && u.posts == t.posts
    && u.likes == t.likes && u.comments == t.comments && u.stories == t.stories
    && u.views == t.views
  }

  /** Position of `FriendRequest.objects.filter(sender=, receiver=).first()`:
      the lowest primary key, which is the first in list order; `|reqs|` if none. */
  function FirstIndex(reqs: seq<FriendRequest>, sender: UserId, receiver: UserId): (k: nat)
    ensures k <= |reqs|
    ensures k < |reqs| ==> FromTo(reqs[k], sender, receiver)
    ensures forall j :: 0 <= j < k ==> !FromTo(reqs[j], sender, receiver)
    ensures Pairwise(reqs, IdBefore) && k < |reqs| ==>
      forall j :: 0 <= j < |reqs| && j != k && FromTo(reqs[j], sender, receiver) ==> reqs[k].id < reqs[j].id
  {
    if reqs == [] then 0
    else if FromTo(reqs[0], sender, receiver) then 0
    else 1 + FirstIndex(reqs[1..], sender, receiver)
  }

  /** A pending request from `sender` to `receiver` exists. */
  predicate HasPending(reqs: seq<FriendRequest>, sender: UserId, receiver: UserId)
  {
    exists r | r in reqs :: FromTo(r, sender, receiver) && r.status == Pending
  }

  /** Position of the request with primary key `id`, or `|reqs|` if none. */
  function IndexOfId(reqs: seq<FriendRequest>, id: RequestId): (k: nat)
    ensures k <= |reqs|
    ensures k < |reqs| ==> reqs[k].id == id
    ensures k == |reqs| ==> forall r :: r in reqs ==> r.id != id
  {
    if reqs == [] then 0
    else if reqs[0].id == id then 0
    else 1 + IndexOfId(reqs[1..], id)
  }

  function RemoveAt(reqs: seq<FriendRequest>, k: nat): (r: seq<FriendRequest>)
    requires k < |reqs|
    ensures |r| == |reqs| - 1
    ensures forall x :: x in r ==> x in reqs
  {
    reqs[..k] + reqs[k + 1..]
  }

  function NotFromTo(sender: UserId, receiver: UserId): FriendRequest -> bool
  {
    r => !FromTo(r, sender, receiver)
  }

  /** POST followers/{target}/follow/ by `caller`. */
  function Follow(t: Tables, caller: UserId, target: UserId): (res: (Tables, FollowReply))
    ensures SameOtherTables(t, res.0)
    ensures res.1.Code() != 200 ==> res.0 == t
    ensures res.1 == NoSuchUser <==> target !in t.users
    ensures res.1 == CannotFollowSelf <==> target in t.users && target == caller
    ensures target in t.users && target != caller && Edge(caller, target) in t.follows
      ==> res == (t, AlreadyFollowing)
    ensures IsPrivate(t, target) ==> res.0.follows == t.follows
    ensures !IsPrivate(t, target) ==> res.0.requests == t.requests
    ensures target in t.users && target != caller && !IsPrivate(t, target)
      ==> res.0.follows == t.follows + {Edge(caller, target)}
    ensures res.1.Followed? ==> res.1.created
    ensures res.1 != RequestSent ==> res.0.requests == t.requests && res.0.nextRequestId == t.nextRequestId
    ensures res.1 == RequestSent ==> res.0.nextRequestId == t.nextRequestId + 1
  {
    if target !in t.users then (t, NoSuchUser)
    else if target == caller then (t, CannotFollowSelf)
    else if Edge(caller, target) in t.follows then (t, AlreadyFollowing)
    else if IsPrivate(t, target) then
      var k := FirstIndex(t.requests, caller, target);
      if k < |t.requests| && t.requests[k].status == Pending then (t, RequestAlreadyPending)
      else if HasPending(t.requests, target, caller) then (t, TheyAlreadyRequested)
      else
        var kept := if k < |t.requests| then RemoveAt(t.requests, k) else t.requests;
        var made := FriendRequest(t.nextRequestId, caller, target, Pending);
        (t.(requests := kept + [made], nextRequestId := t.nextRequestId + 1), RequestSent)
    else
      var created := Edge(caller, target) !in t.follows;
      (t.(follows := t.follows + {Edge(caller, target)}), Followed(created))
  }

  /** POST followers/{target}/unfollow/ by `caller`: always answers 200. */
  function Unfollow(t: Tables, caller: UserId, target: UserId): (u: Tables)
    ensures SameOtherTables(t, u) && u.nextRequestId == t.nextRequestId
    ensures u.follows == t.follows - {Edge(caller, target)}
    ensures forall r :: r in u.requests <==> r in t.requests && !FromTo(r, caller, target)
    ensures u.requests == Filter(t.requests, NotFromTo(caller, target))
  {
    t.(follows := t.follows - {Edge(caller, target)},
       requests := Filter(t.requests, NotFromTo(caller, target)))
  }

  /** The checks `accept` and `reject` share: the request must be one the caller
      takes part in (else get_object fails), the caller must be its receiver,
      and it must still be pending. Yields the request's position when all pass. */
  function Gate(t: Tables, caller: UserId, id: RequestId): (g: Option<nat>)
    ensures g.Some? ==> (g.value < |t.requests| && t.requests[g.value].id == id
      && t.requests[g.value].receiver == caller && t.requests[g.value].status == Pending)
    ensures var k := IndexOfId(t.requests, id);
      k < |t.requests| && t.requests[k].receiver == caller && t.requests[k].status == Pending ==> g == Some(k)
  {
    var k := IndexOfId(t.requests, id);
    if k < |t.requests| && t.requests[k].receiver == caller && t.requests[k].status == Pending
    then Some(k) else None
  }

  /** The error reply of a failed `Gate`, by the first check that fails:
      404 when `get_object` finds no request with this id among those the
      caller sends or receives, 403 when the caller is only its sender, and
      otherwise 400 (the request is the caller's to decide, so the gate
      failed on its status). */
  function GateError(t: Tables, caller: UserId, id: RequestId): (e: DecisionReply)
    ensures e.Code() != 200
    ensures var k := IndexOfId(t.requests, id);
      e == RequestNotFound <==>
        k == |t.requests| || (t.requests[k].sender != caller && t.requests[k].receiver != caller)
    ensures var k := IndexOfId(t.requests, id);
      e == NotReceiver <==>
        k < |t.requests| && t.requests[k].sender == caller && t.requests[k].receiver != caller
    ensures var k := IndexOfId(t.requests, id);
      e == NotPending <==> k < |t.requests| && t.requests[k].receiver == caller
  {
    var k := IndexOfId(t.requests, id);
    if k == |t.requests| then RequestNotFound
    else
      var r := t.requests[k];
      if r.sender != caller && r.receiver != caller then RequestNotFound
      else if r.receiver != caller then NotReceiver
      else NotPending
  }

  /** POST friend-requests/{id}/accept/ by `caller`. */
  function Accept(t: Tables, caller: UserId, id: RequestId): (res: (Tables, DecisionReply))
    ensures SameOtherTables(t, res.0) && res.0.nextRequestId == t.nextRequestId
    ensures res.1.Code() != 200 ==> res.0 == t
    ensures res.1.Code() == 200 ==> res.1 == Decided(Accepted)
    ensures Gate(t, caller, id).Some? <==> res.1.Code() == 200
    ensures res.1.Code() == 200 ==>
      var k := Gate(t, caller, id).value;
      var r := t.requests[k];
      && res.0.requests == t.requests[k := r.(status := Accepted)]
      && res.0.follows == t.follows + {Edge(r.sender, r.receiver), Edge(r.receiver, r.sender)}
  {
    match Gate(t, caller, id)
    case None => (t, GateError(t, caller, id))
    case Some(k) =>
      var r := t.requests[k];
      (t.(requests := t.requests[k := r.(status := Accepted)],
          follows := t.follows + {Edge(r.sender, r.receiver), Edge(r.receiver, r.sender)}),
       Decided(Accepted))
  }

  /** POST friend-requests/{id}/reject/ by `caller`: like `accept`, but no edge. */
  function Reject(t: Tables, caller: UserId, id: RequestId): (res: (Tables, DecisionReply))
    ensures SameOtherTables(t, res.0) && res.0.nextRequestId == t.nextRequestId
    ensures res.0.follows == t.follows
    ensures res.1.Code() != 200 ==> res.0 == t
    ensures res.1.Code() == 200 ==> res.1 == Decided(Rejected)
    ensures Gate(t, caller, id).Some? <==> res.1.Code() == 200
    ensures res.1.Code() == 200 ==>
      var k := Gate(t, caller, id).value;
      res.0.requests == t.requests[k := t.requests[k].(status := Rejected)]
  {
    match Gate(t, caller, id)
    case None => (t, GateError(t, caller, id))
    case Some(k) =>
      (t.(requests := t.requests[k := t.requests[k].(status := Rejected)]), Decided(Rejected))
  }

  /** GET friend-requests/pending/: requests the caller received that are pending. */
  function PendingFor(t: Tables, caller: UserId): (rs: seq<FriendRequest>)
    ensures forall r :: r in rs <==> r in t.requests && r.receiver == caller && r.status == Pending
  {
    Filter(t.requests, (r: FriendRequest) => r.receiver == caller && r.status == Pending)
  }

  /** GET friend-requests/sent/: requests the caller sent that are pending. */
  function SentBy(t: Tables, caller: UserId): (rs: seq<FriendRequest>)
    ensures forall r :: r in rs <==> r in t.requests && r.sender == caller && r.status == Pending
  {
    Filter(t.requests, (r: FriendRequest) => r.sender == caller && r.status == Pending)
  }

  predicate AcceptedWith(r: FriendRequest, caller: UserId)
  {
    (r.sender == caller || r.receiver == caller) && r.status == Accepted
  }

  function OtherParty(r: FriendRequest, caller: UserId): UserId
  {
    if r.sender == caller then r.receiver else r.sender
  }

  /** GET friend-requests/friends/: the other party of every accepted request
      the caller takes part in, one entry per request. */
  function FriendsOf(t: Tables, caller: UserId): (us: seq<UserId>)
    ensures |us| == |Filter(t.requests, (r: FriendRequest) => AcceptedWith(r, caller))|
    ensures forall u :: u in us <==> (exists r :: r in t.requests && AcceptedWith(r, caller) && OtherParty(r, caller) == u)
  {
    var accepted := Filter(t.requests, (r: FriendRequest) => AcceptedWith(r, caller));
    var us := Map(accepted, (r: FriendRequest) => OtherParty(r, caller));
    assert forall u :: u in us ==> exists i :: 0 <= i < |accepted| && u == OtherParty(accepted[i], caller);
    assert forall i :: 0 <= i < |accepted| ==> OtherParty(accepted[i], caller) in us by {
      forall i | 0 <= i < |accepted| ensures OtherParty(accepted[i], caller) in us {
        assert us[i] == OtherParty(accepted[i], caller);
      }
    }
    us
  }
}
