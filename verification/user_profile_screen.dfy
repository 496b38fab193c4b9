/** The live profile screen of another user
    (forntend/instagram/src/screens/profile/UserProfileScreen.tsx, from line 247):
    the follow state derived from the fetched profile, the follow and
    unfollow handlers that change it only once the server has accepted the
    call, the button offered for each state, and the displayed counts. */
module UserProfileScreen {
  import opened Common
  import Api = ApiServices
  import opened UseAuth

  datatype FollowState = NotFollowing | Following | Pending

  /** The fields of the fetched profile the screen reads; every one of them
      may be missing from the answer. `userObjId` is `profile.user.id`. */
  datatype ProfileData = ProfileData(
    userObjId: Option<int>, id: Option<int>,
    isFollowing: Option<bool>, requestSent: Option<bool>, isPrivate: Option<bool>,
    followersCount: Option<int>, followingCount: Option<int>)

  /** Truthiness of an optional number or flag. */
  predicate TruthyInt(n: Option<int>)
  {
    n.Some? && n.value != 0
  }

  predicate TruthyBool(b: Option<bool>)
  {
    b == Some(true)
  }

  /** `profile?.user?.id || profile?.id`. */
  function UserIdOf(p: ProfileData): (id: Option<int>)
    ensures TruthyInt(p.userObjId) ==> id == p.userObjId
    ensures !TruthyInt(p.userObjId) ==> id == p.id
  {
    if TruthyInt(p.userObjId) then p.userObjId else p.id
  }

  /** The state the effect derives whenever the profile changes. */
  function Derive(p: ProfileData): (s: FollowState)
    ensures s == Following <==> TruthyBool(p.isFollowing)
    ensures s == Pending <==> !TruthyBool(p.isFollowing) && TruthyBool(p.requestSent)
    ensures s == NotFollowing <==> !TruthyBool(p.isFollowing) && !TruthyBool(p.requestSent)
  {
    if TruthyBool(p.isFollowing) then Following
    else if TruthyBool(p.requestSent) then Pending
    else NotFollowing
  }

  /** The state a successful follow moves to. */
  function AfterFollow(p: ProfileData): (s: FollowState)
    ensures s == Pending <==> TruthyBool(p.isPrivate)
    ensures s != NotFollowing
  {
    if TruthyBool(p.isPrivate) then Pending else Following
  }

  /** `followers_count ?? followers.length`: a null or missing count falls
      back to the fetched list's length, while a count of zero is shown. */
  function DisplayCount(count: Option<int>, listLength: nat): (n: int)
    ensures count.Some? ==> n == count.value
    ensures count.None? ==> n == listLength
  {
    count.GetOr(listLength)
  }

  datatype ButtonAction = NoAction | DoFollow | DoUnfollow

  /** What `FollowButton` renders: its text, what a press does, and whether
      it is disabled. */
  datatype Button = Button(text: string, action: ButtonAction, disabled: bool)

  /** `FollowButton`, where `loading` is `followLoading || unfollowLoading`. */
  function FollowButton(s: FollowState, isPrivate: Option<bool>, loading: bool): (b: Button)
    ensures b.action == DoUnfollow <==> s == Following
    ensures b.action == DoFollow <==> s == NotFollowing
    ensures b.action == NoAction <==> s == Pending
    ensures b.action != NoAction ==> (b.disabled <==> loading)
    ensures b.action != NoAction && loading ==> b.text == "Loading..."
    ensures s == Pending ==> b.text == "Requested" && !b.disabled
    ensures s == NotFollowing && !loading ==> b.text == (if TruthyBool(isPrivate) then "Request" else "Follow")
    ensures s == Following && !loading ==> b.text == "Following"
  {
    match s
    case Following => Button(if loading then "Loading..." else "Following", DoUnfollow, loading)
    case Pending => Button("Requested", NoAction, false)
    case NotFollowing =>
      Button(if loading then "Loading..." else if TruthyBool(isPrivate) then "Request" else "Follow", DoFollow, loading)
  }

  const FollowFailedMessage: string := "Failed to follow"
  const UnfollowFailedMessage: string := "Failed to unfollow"

  /** The screen: the follow state, the alerts shown, and the device whose
      cache the mutations invalidate. */
  class UserProfileState {
    var followState: FollowState
    var alerts: seq<Alert>
    const device: Device

    constructor (device: Device)
      ensures followState == NotFollowing && alerts == [] && this.device == device
    {
      followState := NotFollowing;
      alerts := [];
      this.device := device;
    }

    /** The effect on `[profile]`: nothing until a profile is loaded, then
        the derived state. */
    method OnProfile(p: Option<ProfileData>)
      modifies this
      ensures alerts == old(alerts)
      ensures followState == if p.Some? then Derive(p.value) else old(followState)
    {
      if p.Some? {
        followState := Derive(p.value);
      }
    }

    /** `handleFollow`, reached from the Follow/Request button; `o` is the
        outcome of `followUser`, if it is sent. Returns the id followed. */
    method HandleFollow(p: ProfileData, o: Api.MutationOutcome) returns (sent: Option<int>)
      modifies this, device
      ensures device.storage == old(device.storage)
      ensures !TruthyInt(UserIdOf(p)) ==>
        sent.None? && followState == old(followState) && alerts == old(alerts) && device.cache == old(device.cache)
      ensures TruthyInt(UserIdOf(p)) ==>
        sent == UserIdOf(p) && device.cache == Api.AfterMutation(old(device.cache), Api.FollowUser)
      ensures TruthyInt(UserIdOf(p)) && o.Fulfilled? ==> followState == AfterFollow(p) && alerts == old(alerts)
      ensures TruthyInt(UserIdOf(p)) && o.Rejected? ==>
        && followState == old(followState)
        && alerts == old(alerts) + [Alert("Error", FirstTruthy([o.dataError], FollowFailedMessage))]
    {
      var userId := UserIdOf(p);
      if !TruthyInt(userId) {
        return None;
      }
      device.cache := Api.AfterMutation(device.cache, Api.FollowUser);
      match o {
        case Fulfilled =>
          followState := if TruthyBool(p.isPrivate) then Pending else Following;
        case Rejected(e) =>
          alerts := alerts + [Alert("Error", FirstTruthy([e], FollowFailedMessage))];
      }
      return userId;
    }

    /** `handleUnfollow`, reached from the Following button; `o` is the
        outcome of `unfollowUser`, if it is sent. Returns the id unfollowed. */
    method HandleUnfollow(p: ProfileData, o: Api.MutationOutcome) returns (sent: Option<int>)
      modifies this, device
      ensures device.storage == old(device.storage)
      ensures !TruthyInt(UserIdOf(p)) ==>
        sent.None? && followState == old(followState) && alerts == old(alerts) && device.cache == old(device.cache)
      ensures TruthyInt(UserIdOf(p)) ==>
        sent == UserIdOf(p) && device.cache == Api.AfterMutation(old(device.cache), Api.UnfollowUser)
      ensures TruthyInt(UserIdOf(p)) && o.Fulfilled? ==> followState == NotFollowing && alerts == old(alerts)
      ensures TruthyInt(UserIdOf(p)) && o.Rejected? ==>
        && followState == old(followState)
        && alerts == old(alerts) + [Alert("Error", FirstTruthy([o.dataError], UnfollowFailedMessage))]
    {
      var userId := UserIdOf(p);
      if !TruthyInt(userId) {
        return None;
      }
      device.cache := Api.AfterMutation(device.cache, Api.UnfollowUser);
      match o {
        case Fulfilled =>
          followState := NotFollowing;
        case Rejected(e) =>
          alerts := alerts + [Alert("Error", FirstTruthy([e], UnfollowFailedMessage))];
      }
      return userId;
    }
  }

  /** A successful follow of a public user turns the button into an unfollow
      button, and a successful unfollow turns it back; a successful follow of
      a private user leaves a button with no action. */
  lemma FollowThenUnfollow(p: ProfileData, loading: bool)
    ensures !TruthyBool(p.isPrivate) ==> FollowButton(AfterFollow(p), p.isPrivate, loading).action == DoUnfollow
    ensures TruthyBool(p.isPrivate) ==> FollowButton(AfterFollow(p), p.isPrivate, loading).action == NoAction
    ensures FollowButton(NotFollowing, p.isPrivate, loading).action == DoFollow
  {
  }

  /** A profile shaped as the profile endpoint serialises it carries no ids
      and no relationship flags: the screen then always offers Follow, and
      pressing it sends nothing. */
  lemma SerializedProfileCannotFollow(isPrivate: Option<bool>, followers: Option<int>, following: Option<int>)
    ensures var p := ProfileData(None, None, None, None, isPrivate, followers, following);
      Derive(p) == NotFollowing && !TruthyInt(UserIdOf(p))
  {
  }

  /** A profile that carries the user's id and the viewer's relationship
      flags, as the screen reads it, drives the button: the follow call goes
      to that id, and the button offers the action that matches the flags. */
  lemma ProfileWithRelationshipCanFollow(id: int, isFollowing: bool, requestSent: bool, isPrivate: Option<bool>,
                                         followers: Option<int>, following: Option<int>)
    requires id != 0
    ensures var p := ProfileData(None, Some(id), Some(isFollowing), Some(requestSent), isPrivate, followers, following);
      && UserIdOf(p) == Some(id) && TruthyInt(UserIdOf(p))
      && (FollowButton(Derive(p), isPrivate, false).action == DoFollow <==> !isFollowing && !requestSent)
      && (FollowButton(Derive(p), isPrivate, false).action == DoUnfollow <==> isFollowing)
  {
  }
}
