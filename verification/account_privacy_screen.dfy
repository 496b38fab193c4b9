/** The privacy switch (forntend/instagram/src/screens/settings/AccountPrivacyScreen.tsx):
    the current setting is read from the cached `getMe` user, and a toggle
    asks for the opposite setting, then alerts the outcome. */
module AccountPrivacyScreen {
  import opened Common
  import opened ApiServices
  import opened UseAuth

  /** `!!user?.profile?.is_private`. */
  function IsPrivate(user: Option<MeUser>): (b: bool)
    ensures b <==> user.Some? && user.value.profile.Some? && user.value.profile.value.isPrivate == Some(true)
  {
    match user
    case None => false
    case Some(u) => u.profile.Some? && u.profile.value.isPrivate == Some(true)
  }

  /** The status label the screen shows for a setting. */
  function StatusLabel(isPrivate: bool): (name: string)
    ensures name == "Private" || name == "Public"
    ensures name == "Private" <==> isPrivate
  {
    if isPrivate then "Private" else "Public"
  }

  /** The success message after toggling from the setting `wasPrivate`. */
  function ToggledMessage(wasPrivate: bool): (msg: string)
    ensures msg == "Your account is now Private" <==> !wasPrivate
    ensures msg == "Your account is now Public" <==> wasPrivate
  {
    "Your account is now " + (if !wasPrivate then "Private" else "Public")
  }

  const ToggleFailedAlert: Alert := Alert("Error", "Failed to update privacy setting.")

  /** The screen: the cached user, the mutation's in-flight flag and the
      alerts shown. The flag is set only while the awaited call runs, which
      `OnToggle` completes in one step, so the model keeps it false between
      handler calls; it stands for the switch being disabled, which is why a
      toggle requires it to be false. */
  class AccountPrivacyState {
    const user: Option<MeUser>
    var updating: bool
    var alerts: seq<Alert>
    const device: Device

    constructor (user: Option<MeUser>, device: Device)
      ensures this.user == user && !updating && alerts == [] && this.device == device
    {
      this.user := user;
      updating := false;
      alerts := [];
      this.device := device;
    }

    /** `onToggle`; the switch is disabled while an update is in flight.
        `o` is the outcome of `updatePrivacy`; returns the requested setting. */
    method OnToggle(o: MutationOutcome) returns (requested: bool)
      requires !updating
      modifies this, device
      ensures !updating && device.storage == old(device.storage)
      ensures requested == !IsPrivate(user)
      ensures device.cache == AfterMutation(old(device.cache), UpdatePrivacy)
      ensures o.Fulfilled? ==> alerts == old(alerts) + [Alert("Privacy Updated", ToggledMessage(IsPrivate(user)))]
      ensures o.Rejected? ==> alerts == old(alerts) + [ToggleFailedAlert]
    {
      var wasPrivate := IsPrivate(user);
      requested := !wasPrivate;
      device.cache := AfterMutation(device.cache, UpdatePrivacy);
      if o.Fulfilled? {
        alerts := alerts + [Alert("Privacy Updated", ToggledMessage(wasPrivate))];
      } else {
        alerts := alerts + [ToggleFailedAlert];
      }
    }
  }

  /** The success message names the requested setting with the label the
      screen shows for it, and the cached user is stale afterwards, so the
      switch is refetched rather than left showing the old setting. */
  lemma ToggleAnnouncesRequested(user: Option<MeUser>, c: Cache, result: Option<seq<string>>)
    ensures ToggledMessage(IsPrivate(user)) == "Your account is now " + StatusLabel(!IsPrivate(user))
    ensures AfterMutation(Store(c, GetMe, result), UpdatePrivacy)[GetMe].stale
  {
    var d := Store(c, GetMe, result);
    assert Me in KindsOf(d[GetMe].tags) * Invalidates(UpdatePrivacy);
  }
}
