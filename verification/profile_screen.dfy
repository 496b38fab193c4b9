/** The profile screen reached with an optional `userId` route parameter
    (forntend/instagram/src/screens/profile/ProfileScreen.tsx): how the
    parameter is read, when the screen shows the signed-in user's own
    profile, and the follow buttons, which set the state once the call has
    settled whatever its outcome. */
module ProfileScreen {
  import opened Common
  import Api = ApiServices
  import opened UseAuth

  /** A JavaScript number; fractions are kept as reals. */
  datatype JsNumber = Finite(value: real) | Infinite(negative: bool) | NaN

  predicate TruthyNumber(n: JsNumber)
  {
    match n
    case Finite(v) => v != 0.0
    case Infinite(_) => true
    case NaN => false
  }

  /** The route parameter: a number, or any other value with its truthiness
      and what `Number` converts it to (a missing parameter is a falsy
      other value). */
  datatype Param = NumberParam(n: JsNumber) | OtherParam(truthy: bool, converted: JsNumber)

  /** `typeof raw === 'number' ? raw : (raw ? Number(raw) : undefined)`. */
  function ParseUserId(raw: Param): (id: Option<JsNumber>)
    ensures raw.NumberParam? ==> id == Some(raw.n)
    ensures raw.OtherParam? && raw.truthy ==> id == Some(raw.converted)
    ensures raw.OtherParam? && !raw.truthy ==> id.None?
  {
    match raw
    case NumberParam(n) => Some(n)
    case OtherParam(truthy, converted) => if truthy then Some(converted) else None
  }

  /** `isSelf = !userId`. */
  function IsSelf(raw: Param): (self: bool)
    ensures self <==> ParseUserId(raw).None? || !TruthyNumber(ParseUserId(raw).value)
  {
    var id := ParseUserId(raw);
    id.None? || !TruthyNumber(id.value)
  }

  /** Exactly the missing, zero and NaN ids show the signed-in user's own
      profile. */
  lemma SelfExactlyWhenFalsy(raw: Param)
    ensures IsSelf(raw) <==>
      ParseUserId(raw) == None || ParseUserId(raw) == Some(NaN) || ParseUserId(raw) == Some(Finite(0.0))
  {
  }

  /** The guard `!isSelf && (typeof userId !== 'number' || Number.isNaN(userId))`
      never holds: a parsed id is always a number, and NaN counts as self. */
  lemma InvalidParamBranchUnreachable(raw: Param)
    ensures !IsSelf(raw) ==> ParseUserId(raw).Some? && !ParseUserId(raw).value.NaN?
  {
  }

  datatype FollowState = Self | NotFollowing | Following | Pending

  datatype ButtonAction = NoAction | DoFollow | DoRequest | DoUnfollow

  /** The button the screen renders for a state: its text, what a press
      does, and whether it is disabled. */
  datatype Button = Button(text: string, action: ButtonAction, disabled: bool)

  /** The button choice; `isPrivate` is `user.profile?.is_private`. */
  function FollowButton(s: FollowState, isPrivate: Option<bool>,
                        followLoading: bool, unfollowLoading: bool, requestLoading: bool): (b: Button)
    ensures s == Self ==> b == Button("Edit Profile", NoAction, false)
    ensures s == Pending ==> b == Button("Requested", NoAction, false)
    ensures b.action == DoUnfollow <==> s == Following
    ensures s == Following ==> b.text == "Unfollow" && (b.disabled <==> unfollowLoading)
    ensures s == NotFollowing ==>
      && (b.action == DoRequest <==> isPrivate == Some(true))
      && (b.action == DoFollow <==> isPrivate != Some(true))
      && b.text == (if isPrivate == Some(true) then "Request" else "Follow")
      && (b.disabled <==> followLoading || requestLoading)
  {
    match s
    case Self => Button("Edit Profile", NoAction, false)
    case Following => Button("Unfollow", DoUnfollow, unfollowLoading)
    case Pending => Button("Requested", NoAction, false)
    case NotFollowing =>
      if isPrivate == Some(true) then Button("Request", DoRequest, followLoading || requestLoading)
      else Button("Follow", DoFollow, followLoading || requestLoading)
  }

  /** The screen: its route parameter, the follow state and the device whose
      cache the mutations invalidate. */
  class ProfileScreenState {
    const raw: Param
    var followState: FollowState
    const device: Device

    /** `useState(isSelf ? 'self' : 'not-following')`. */
    constructor (raw: Param, device: Device)
      ensures this.raw == raw && this.device == device
      ensures followState == if IsSelf(raw) then Self else NotFollowing
    {
      this.raw := raw;
      followState := if IsSelf(raw) then Self else NotFollowing;
      this.device := device;
    }

    /** The effect on `[userId, user]`: it only ever resets the state to
        `self`, and only on the own profile. */
    method OnUserChanged()
      modifies this
      ensures followState == if IsSelf(raw) then Self else old(followState)
    {
      if IsSelf(raw) {
        followState := Self;
      }
    }

    /** The Unfollow button: `unfollowUser` is awaited without `unwrap`, so
        the state becomes not-following whatever `o` is. Returns the
        mutation sent. */
    method OnUnfollowPress(o: Api.MutationOutcome) returns (m: Api.Mutation)
      requires followState == Following
      modifies this, device
      ensures m == Api.UnfollowUser && followState == NotFollowing
      ensures device.cache == Api.AfterMutation(old(device.cache), m) && device.storage == old(device.storage)
    {
      m := Api.UnfollowUser;
      device.cache := Api.AfterMutation(device.cache, m);
      followState := NotFollowing;
    }

    /** The Follow/Request button: a private user gets a friend request and
        the state pending, a public one a follow and the state following,
        whatever `o` is. Returns the mutation sent. */
    method OnFollowPress(isPrivate: Option<bool>, o: Api.MutationOutcome) returns (m: Api.Mutation)
      requires followState == NotFollowing
      modifies this, device
      ensures isPrivate == Some(true) ==> m == Api.SendFriendRequest && followState == Pending
      ensures isPrivate != Some(true) ==> m == Api.FollowUser && followState == Following
      ensures device.cache == Api.AfterMutation(old(device.cache), m) && device.storage == old(device.storage)
    {
      if isPrivate == Some(true) {
        m := Api.SendFriendRequest;
        followState := Pending;
      } else {
        m := Api.FollowUser;
        followState := Following;
      }
      device.cache := Api.AfterMutation(device.cache, m);
    }
  }

  /** Pressing a button sends exactly the mutation the button shows, and the
      state it leaves behind never offers the same press again. */
  lemma PressMatchesButton(isPrivate: Option<bool>, fl: bool, ul: bool, rl: bool)
    ensures FollowButton(NotFollowing, isPrivate, fl, ul, rl).action == DoRequest ==>
      FollowButton(Pending, isPrivate, fl, ul, rl).action == NoAction
    ensures FollowButton(NotFollowing, isPrivate, fl, ul, rl).action == DoFollow ==>
      FollowButton(Following, isPrivate, fl, ul, rl).action == DoUnfollow
    ensures FollowButton(Following, isPrivate, fl, ul, rl).action == DoUnfollow ==>
      FollowButton(NotFollowing, isPrivate, fl, ul, rl).action in {DoFollow, DoRequest}
  {
  }
}
