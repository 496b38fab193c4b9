/** The login form (forntend/instagram/src/screens/auth/LoginScreen.tsx):
    `validate` refuses an incomplete form with an alert; `onSubmit` clears the
    displayed error, calls `handleLogin`, and shows the error it returns. */
module LoginScreen {
  import opened Common
  import opened ApiServices
  import opened UseAuth

  datatype LoginForm = LoginForm(username: string, password: string)

  const RequiredAlert: string := "Both fields are required"

  /** `validate`. */
  function Validate(f: LoginForm): (ok: bool)
    ensures ok <==> f.username != "" && f.password != ""
  {
    f.username != "" && f.password != ""
  }

  /** The error shown after a submitted attempt: none on success, the
      message `handleLogin` chose on failure. */
  function ShownError(o: ServerOutcome): (e: Option<string>)
    ensures e.None? <==> o.Succeeded?
    ensures e.Some? ==> e.value != "" && e.value == ErrorMessage(o, "Login failed")
  {
    var r := Result(o, "Login failed");
    if !r.success && Truthy(r.error) then r.error else None
  }

  class LoginScreenState {
    var form: LoginForm
    var error: Option<string>
    var alerts: seq<string>
    const device: Device

    constructor (device: Device)
      ensures form == LoginForm("", "") && error.None? && alerts == [] && this.device == device
    {
      form := LoginForm("", "");
      error := None;
      alerts := [];
      this.device := device;
    }

    /** `onSubmit`; `o` is the server's answer to the login request, if one
        is sent. Returns whether a request was sent. */
    method OnSubmit(o: ServerOutcome) returns (sent: bool)
      modifies this, device
      ensures form == old(form)
      ensures sent <==> Validate(form)
      ensures !sent ==>
        && alerts == old(alerts) + [RequiredAlert] && error == old(error)
        && device.storage == old(device.storage) && device.cache == old(device.cache)
      ensures sent ==>
        && alerts == old(alerts) && error == ShownError(o)
        && device.storage == StorageAfter(old(device.storage), o)
        && device.cache == AfterMutation(old(device.cache), Login)
    {
      if !Validate(form) {
        alerts := alerts + [RequiredAlert];
        return false;
      }
      error := None;
      var result := device.HandleLogin(o);
      if !result.success && Truthy(result.error) {
        error := result.error;
      }
      return true;
    }
  }

  /** A failed login always leaves an error on screen, and a successful one
      clears whatever error an earlier attempt left. */
  lemma ErrorTracksLastAttempt(o1: ServerOutcome, o2: ServerOutcome)
    ensures o1.Threw? ==> ShownError(o1).Some?
    ensures o2.Succeeded? ==> ShownError(o2).None?
  {
  }
}
