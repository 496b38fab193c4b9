/** Properties of the follow and friend-request actions that relate several
    calls, or that hold in every database reachable through the modelled
    actions: the invariant `Consistent` is kept by each of them, and the
    request lifecycle ends in a mutual follow. The generic create, update and
    delete routes of the friend-request endpoint are not among those actions,
    and a status written through them can break the invariant. */
module FollowProps {
  import opened Common
  import opened Seqs
  import opened Models
  import opened FollowSpec

  /** With one request per pair, deleting the first request of a pair deletes
      every request of that pair. */
  lemma {:induction false} RemoveFirstIsFilter(reqs: seq<FriendRequest>, sender: UserId, receiver: UserId)
    requires OnePerPair(reqs)
    requires FirstIndex(reqs, sender, receiver) < |reqs|
    ensures RemoveAt(reqs, FirstIndex(reqs, sender, receiver)) == Filter(reqs, NotFromTo(sender, receiver))
  {
    var k := FirstIndex(reqs, sender, receiver);
    var p := NotFromTo(sender, receiver);
    var before, after := reqs[..k], reqs[k + 1..];
    assert reqs == before + [reqs[k]] + after;
    forall y | y in after ensures p(y) {
      var i :| 0 <= i < |after| && after[i] == y;
      assert after[i] == reqs[k + 1 + i];
      assert DistinctPair(reqs[k], reqs[k + 1 + i]);
    }
    FilterDropsOne(before, reqs[k], after, p);
  }

  /** Under `OnePerPair`, "the first request of the pair is pending" is the
      same as "the pair has a pending request". */
  lemma FirstPendingIsAnyPending(reqs: seq<FriendRequest>, sender: UserId, receiver: UserId)
    requires OnePerPair(reqs)
    ensures var k := FirstIndex(reqs, sender, receiver);
      (k < |reqs| && reqs[k].status == Pending) <==> HasPending(reqs, sender, receiver)
  {
    var k := FirstIndex(reqs, sender, receiver);
    if HasPending(reqs, sender, receiver) {
      var r :| r in reqs && FromTo(r, sender, receiver) && r.status == Pending;
      var j :| 0 <= j < |reqs| && reqs[j] == r;
    }
  }

  /** `follow` on a private target, on a consistent database: nothing happens
      while either side has a pending request to the other; otherwise every old
      request caller -> target is replaced by one new pending request. */
  lemma FollowPrivate(t: Tables, caller: UserId, target: UserId)
    requires Consistent(t)
    requires target in t.users && target != caller && Edge(caller, target) !in t.follows
    requires IsPrivate(t, target)
    ensures var res := Follow(t, caller, target);
      && (HasPending(t.requests, caller, target) ==> res == (t, RequestAlreadyPending))
      && (!HasPending(t.requests, caller, target) && HasPending(t.requests, target, caller)
          ==> res == (t, TheyAlreadyRequested))
      && (!HasPending(t.requests, caller, target) && !HasPending(t.requests, target, caller)
          ==> res.1 == RequestSent && res.0.follows == t.follows
              && res.0.requests == Filter(t.requests, NotFromTo(caller, target))
                                   + [FriendRequest(t.nextRequestId, caller, target, Pending)])
  {
    FirstPendingIsAnyPending(t.requests, caller, target);
    var k := FirstIndex(t.requests, caller, target);
    if k < |t.requests| {
      RemoveFirstIsFilter(t.requests, caller, target);
    } else {
      assert forall x :: x in t.requests ==> NotFromTo(caller, target)(x);
    }
  }

  /** Every request of `old` is in `new`, or `new` adds only non-pending ones. */
  lemma NoCrossedPendingSubset(old_: seq<FriendRequest>, new_: seq<FriendRequest>)
    requires NoCrossedPending(old_)
    requires forall r :: r in new_ && r.status == Pending ==> r in old_
    ensures NoCrossedPending(new_)
  {
  }

  /** `follow` keeps the database consistent. */
  lemma FollowKeepsConsistent(t: Tables, caller: UserId, target: UserId)
    requires Consistent(t)
    ensures Consistent(Follow(t, caller, target).0)
  {
    var res := Follow(t, caller, target);
    if res.1 == RequestSent {
      FollowPrivate(t, caller, target);
      var kept := Filter(t.requests, NotFromTo(caller, target));
      var made := FriendRequest(t.nextRequestId, caller, target, Pending);
      assert res.0.requests == kept + [made];
      FilterPairwise(t.requests, NotFromTo(caller, target), IdBefore);
      FilterPairwise(t.requests, NotFromTo(caller, target), DistinctPair);
      forall y | y in kept ensures IdBefore(y, made) && DistinctPair(y, made) {
        var j :| 0 <= j < |t.requests| && t.requests[j] == y;
      }
      SnocPairwise(kept, made, IdBefore);
      SnocPairwise(kept, made, DistinctPair);
      forall a, b | a in res.0.requests && b in res.0.requests && a.status == Pending && b.status == Pending
        ensures !FromTo(b, a.receiver, a.sender)
      {
        if a == made && b != made {
          assert b in t.requests;
        } else if b == made && a != made {
          assert a in t.requests;
        }
      }
    }
  }

  /** `unfollow` keeps the database consistent. */
  lemma UnfollowKeepsConsistent(t: Tables, caller: UserId, target: UserId)
    requires Consistent(t)
    ensures Consistent(Unfollow(t, caller, target))
  {
    FilterPairwise(t.requests, NotFromTo(caller, target), IdBefore);
    FilterPairwise(t.requests, NotFromTo(caller, target), DistinctPair);
  }

  /** Changing one request's status to a non-pending one keeps the database consistent. */
  lemma SettleKeepsConsistent(t: Tables, k: nat, s: Status)
    requires Consistent(t) && k < |t.requests| && s != Pending
    ensures Consistent(t.(requests := t.requests[k := t.requests[k].(status := s)]))
  {
    var reqs := t.requests[k := t.requests[k].(status := s)];
    forall i, j | 0 <= i < j < |reqs| ensures IdBefore(reqs[i], reqs[j]) && DistinctPair(reqs[i], reqs[j]) {
      assert IdBefore(t.requests[i], t.requests[j]) && DistinctPair(t.requests[i], t.requests[j]);
    }
    forall r | r in reqs && r.status == Pending ensures r in t.requests {
      var j :| 0 <= j < |reqs| && reqs[j] == r;
      assert j != k;
    }
    NoCrossedPendingSubset(t.requests, reqs);
  }

  /** `accept` keeps the database consistent. */
  lemma AcceptKeepsConsistent(t: Tables, caller: UserId, id: RequestId)
    requires Consistent(t)
    ensures Consistent(Accept(t, caller, id).0)
  {
    if Gate(t, caller, id).Some? {
      SettleKeepsConsistent(t, Gate(t, caller, id).value, Accepted);
    }
  }

  /** `reject` keeps the database consistent. */
  lemma RejectKeepsConsistent(t: Tables, caller: UserId, id: RequestId)
    requires Consistent(t)
    ensures Consistent(Reject(t, caller, id).0)
  {
    if Gate(t, caller, id).Some? {
      SettleKeepsConsistent(t, Gate(t, caller, id).value, Rejected);
    }
  }

  /** The replies of `accept` and `reject`, case by case: 404 unless the
      request with this id is one the caller sends or receives, 403 when the
      caller only sent it, 400 when the caller received it but it is no
      longer pending, and the decision exactly when it is the caller's to
      decide and still pending. Both actions answer alike. */
  lemma DecisionRefusals(t: Tables, caller: UserId, id: RequestId)
    ensures var k := IndexOfId(t.requests, id);
      var involved := k < |t.requests| && (t.requests[k].sender == caller || t.requests[k].receiver == caller);
      var mine := k < |t.requests| && t.requests[k].receiver == caller;
      && (Accept(t, caller, id).1 == RequestNotFound <==> !involved)
      && (Accept(t, caller, id).1 == NotReceiver <==> involved && !mine)
      && (Accept(t, caller, id).1 == NotPending <==> mine && t.requests[k].status != Pending)
      && (Accept(t, caller, id).1 == Decided(Accepted) <==> mine && t.requests[k].status == Pending)
      && Reject(t, caller, id).1.Code() == Accept(t, caller, id).1.Code()
      && (Reject(t, caller, id).1 == Decided(Rejected) <==> mine && t.requests[k].status == Pending)
  {
    var k := IndexOfId(t.requests, id);
    if k < |t.requests| && t.requests[k].receiver == caller && t.requests[k].status == Pending {
      assert Gate(t, caller, id) == Some(k);
    } else {
      assert Gate(t, caller, id).None?;
    }
  }

  /** Following a public account twice: the second call finds the edge and changes nothing. */
  lemma FollowPublicTwice(t: Tables, caller: UserId, target: UserId)
    requires target in t.users && target != caller && !IsPrivate(t, target)
    ensures var once := Follow(t, caller, target).0;
      && Edge(caller, target) in once.follows
      && Follow(once, caller, target) == (once, AlreadyFollowing)
  {
  }

  /** Unfollowing twice is unfollowing once. */
  lemma UnfollowIdempotent(t: Tables, caller: UserId, target: UserId)
    ensures Unfollow(Unfollow(t, caller, target), caller, target) == Unfollow(t, caller, target)
  {
  }

  /** With increasing ids, the request with a given id is unique. */
  lemma IdsUnique(reqs: seq<FriendRequest>, i: nat, j: nat)
    requires Pairwise(reqs, IdBefore)
    requires i < |reqs| && j < |reqs| && reqs[i].id == reqs[j].id
    ensures i == j
  {
  }

  /** The request lifecycle on a private account: a follow creates a pending
      request the target sees in its pending list; the target accepts it; then
      both follow each other and each is in the other's friends list. */
  lemma RequestThenAccept(t: Tables, caller: UserId, target: UserId)
    requires Consistent(t)
    requires target in t.users && target != caller && Edge(caller, target) !in t.follows
    requires IsPrivate(t, target)
    requires !HasPending(t.requests, caller, target) && !HasPending(t.requests, target, caller)
    ensures var (asked, reply) := Follow(t, caller, target);
      var made := FriendRequest(t.nextRequestId, caller, target, Pending);
      var (done, decision) := Accept(asked, target, t.nextRequestId);
      && reply == RequestSent
      && made in PendingFor(asked, target) && made in SentBy(asked, caller)
      && decision == Decided(Accepted)
      && Edge(caller, target) in done.follows && Edge(target, caller) in done.follows
      && caller in FriendsOf(done, target) && target in FriendsOf(done, caller)
  {
    FollowPrivate(t, caller, target);
    FollowKeepsConsistent(t, caller, target);
    var asked := Follow(t, caller, target).0;
    var made := FriendRequest(t.nextRequestId, caller, target, Pending);
    var last := |asked.requests| - 1;
    assert asked.requests[last] == made;
    var k := IndexOfId(asked.requests, t.nextRequestId);
    assert k < |asked.requests|;
    IdsUnique(asked.requests, k, last);
    var done := Accept(asked, target, t.nextRequestId).0;
    var settled := made.(status := Accepted);
    assert done.requests[last] == settled;
    assert settled in done.requests && AcceptedWith(settled, target) && OtherParty(settled, target) == caller;
    assert AcceptedWith(settled, caller) && OtherParty(settled, caller) == target;
  }

  /** Cancelling a request: follow on a private account, then unfollow, leaves
      no request from the caller to the target and no edge between them. */
  lemma RequestThenUnfollow(t: Tables, caller: UserId, target: UserId)
    requires target in t.users && target != caller && IsPrivate(t, target)
    ensures var back := Unfollow(Follow(t, caller, target).0, caller, target);
      && !HasPending(back.requests, caller, target)
      && back.follows == t.follows - {Edge(caller, target)}
  {
  }
}
