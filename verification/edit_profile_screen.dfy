/** The profile editor (forntend/instagram/src/screens/profile/EditProfileScreen.tsx):
    a form initialised once from the cached `getMe` user, and `handleSave`,
    which sends the trimmed fields, then alerts and navigates back on
    success, or alerts the error and stays on failure. */
module EditProfileScreen {
  import opened Common
  import opened Text
  import opened ApiServices
  import opened UseAuth

  datatype EditForm = EditForm(fullName: string, bio: string, isPrivate: bool)

  /** The body of `updateProfile`. */
  datatype ProfileUpdate = ProfileUpdate(fullName: string, bio: string, isPrivate: bool)

  /** `useState(f?.full_name || '')`, `useState(f?.bio || '')` and
      `useState(f?.is_private || false)` over the object `f` the fields are
      read from. */
  function FormFrom(f: Option<ProfileFields>): (form: EditForm)
    ensures f.None? ==> form == EditForm("", "", false)
    ensures f.Some? ==> form.fullName == f.value.fullName.GetOr("") && form.bio == f.value.bio.GetOr("")
    ensures form.isPrivate <==> f.Some? && f.value.isPrivate == Some(true)
  {
    match f
    case None => EditForm("", "", false)
    case Some(p) =>
      EditForm(if Truthy(p.fullName) then p.fullName.value else "",
               if Truthy(p.bio) then p.bio.value else "",
               p.isPrivate == Some(true))
  }

  /** The initial form as written: the fields are looked up at the top level
      of the `getMe` user, which carries them only inside `profile`, so every
      lookup finds nothing. */
  function WrittenInitialForm(me: Option<MeUser>): (form: EditForm)
    ensures form == EditForm("", "", false)
  {
    FormFrom(if me.Some? then Some(ProfileFields(None, None, None)) else None)
  }

  /** The initial form read from the user's `profile` object. */
  function InitialForm(me: Option<MeUser>): (form: EditForm)
    ensures me.Some? && me.value.profile.Some? ==>
      && form.fullName == me.value.profile.value.fullName.GetOr("")
      && form.bio == me.value.profile.value.bio.GetOr("")
      && (form.isPrivate <==> me.value.profile.value.isPrivate == Some(true))
    ensures (me.None? || me.value.profile.None?) ==> form == EditForm("", "", false)
  {
    FormFrom(if me.Some? then me.value.profile else None)
  }

  /** `handleSave`'s payload: the text fields trimmed, the privacy flag as is. */
  function SavePayload(f: EditForm): (p: ProfileUpdate)
    ensures p.isPrivate == f.isPrivate
    ensures p.fullName == Trim(f.fullName, JsSpace) && p.bio == Trim(f.bio, JsSpace)
    ensures p.fullName != [] ==> !JsSpace(p.fullName[0]) && !JsSpace(p.fullName[|p.fullName| - 1])
    ensures p.bio != [] ==> !JsSpace(p.bio[0]) && !JsSpace(p.bio[|p.bio| - 1])
  {
    ProfileUpdate(Trim(f.fullName, JsSpace), Trim(f.bio, JsSpace), f.isPrivate)
  }

  /** Saving what was just saved sends the same payload again. */
  lemma SaveStable(f: EditForm)
    ensures var p := SavePayload(f); SavePayload(EditForm(p.fullName, p.bio, p.isPrivate)) == p
  {
    TrimIdempotent(f.fullName, JsSpace);
    TrimIdempotent(f.bio, JsSpace);
  }

  /** As written, the form opens blank for every user, so saving it unedited
      sends a payload that would erase the name and bio and make a private
      account public. */
  lemma UneditedSaveErasesProfile()
    ensures var me := MeUser(1, "ann", Some(ProfileFields(Some("Ann"), Some("hello"), Some(true))));
      && InitialForm(Some(me)) == EditForm("Ann", "hello", true)
      && SavePayload(WrittenInitialForm(Some(me))) == ProfileUpdate("", "", false)
  {
    var p := SavePayload(EditForm("", "", false));
    assert p.fullName == [] && p.bio == [];
  }

  /** Read from `profile`, an unedited save sends the profile's own values
      back, trimmed, and keeps its privacy setting. */
  lemma UneditedSaveKeepsProfile(me: MeUser, fullName: string, bio: string, isPrivate: bool)
    requires me.profile == Some(ProfileFields(Some(fullName), Some(bio), Some(isPrivate)))
    ensures SavePayload(InitialForm(Some(me))) == ProfileUpdate(Trim(fullName, JsSpace), Trim(bio, JsSpace), isPrivate)
    ensures Trim(fullName, JsSpace) == fullName && Trim(bio, JsSpace) == bio ==>
      SavePayload(InitialForm(Some(me))) == ProfileUpdate(fullName, bio, isPrivate)
  {
  }

  const SavedAlert: Alert := Alert("Success", "Profile updated successfully!")
  const SaveFailedMessage: string := "Failed to update profile."

  /** The screen: the cached user it was opened with, the form, the alerts
      shown and whether it has navigated back. */
  class EditProfileState {
    const me: Option<MeUser>
    var form: EditForm
    var alerts: seq<Alert>
    var navigatedBack: bool
    const device: Device

    /** The form is initialised once, from the user cached at the first render. */
    constructor (me: Option<MeUser>, device: Device)
      ensures this.me == me && form == InitialForm(me) && alerts == [] && !navigatedBack
      ensures this.device == device
    {
      this.me := me;
      form := InitialForm(me);
      alerts := [];
      navigatedBack := false;
      this.device := device;
    }

    /** `handleSave`; `o` is the outcome of `updateProfile`, if it is sent.
        Returns the payload sent, if any. */
    method HandleSave(o: MutationOutcome) returns (sent: Option<ProfileUpdate>)
      modifies this, device
      ensures form == old(form) && device.storage == old(device.storage)
      ensures me.None? ==>
        && sent.None? && alerts == old(alerts) && navigatedBack == old(navigatedBack)
        && device.cache == old(device.cache)
      ensures me.Some? ==>
        && sent == Some(SavePayload(form))
        && device.cache == AfterMutation(old(device.cache), UpdateProfile)
      ensures me.Some? && o.Fulfilled? ==> alerts == old(alerts) + [SavedAlert] && navigatedBack
      ensures me.Some? && o.Rejected? ==>
        && alerts == old(alerts) + [Alert("Error", FirstTruthy([o.dataError], SaveFailedMessage))]
        && navigatedBack == old(navigatedBack)
    {
      if me.None? {
        return None;
      }
      var payload := SavePayload(form);
      device.cache := AfterMutation(device.cache, UpdateProfile);
      match o {
        case Fulfilled =>
          alerts := alerts + [SavedAlert];
          navigatedBack := true;
        case Rejected(e) =>
          alerts := alerts + [Alert("Error", FirstTruthy([e], SaveFailedMessage))];
      }
      return Some(payload);
    }
  }

  /** A failed save always explains itself. */
  lemma SaveFailureHasMessage(e: Option<string>)
    ensures FirstTruthy([e], SaveFailedMessage) != ""
    ensures Truthy(e) ==> FirstTruthy([e], SaveFailedMessage) == e.value
  {
  }
}
