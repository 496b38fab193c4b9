/** The signup form (forntend/instagram/src/screens/auth/SignupScreen.tsx):
    `validate` runs its checks in order and reports the first failure;
    `onSubmit` sends nothing for an invalid form, and otherwise hands the
    payload to `handleSignup`, which never throws. */
module SignupScreen {
  import opened Common
  import opened Text
  import opened ApiServices
  import opened UseAuth

  datatype SignupForm = SignupForm(username: string, email: string, fullName: string, password: string)

  datatype FormField = UsernameField | EmailField | FullNameField | PasswordField

  /** A character of the class `[^@\s]`. */
  predicate Plain(c: char)
  {
    c != '@' && !JsSpace(c)
  }

  predicate AllPlain(s: string)
  {
    forall i :: 0 <= i < |s| ==> Plain(s[i])
  }

  /** The strings the pattern `^[^@\s]+@[^@\s]+\.[^@\s]+$` accepts. */
  ghost predicate InEmailLanguage(s: string)
  {
    exists a: string, b: string, c: string ::
      a != [] && b != [] && c != [] && AllPlain(a) && AllPlain(b) && AllPlain(c) && s == a + "@" + b + "." + c
  }

  /** The check `emailRegex.test`, by positions: a single '@' that is not
      first, a '.' at least two places after it and not last, and no
      whitespace anywhere. */
  predicate EmailShaped(s: string)
  {
    exists i, j :: 0 < i && i + 1 < j && j + 1 < |s| && s[i] == '@' && s[j] == '.'
      && forall k :: 0 <= k < |s| && k != i ==> Plain(s[k])
  }

  /** The positional check accepts exactly the language of the pattern. */
  lemma EmailShapedIsPattern(s: string)
    ensures EmailShaped(s) <==> InEmailLanguage(s)
  {
    if EmailShaped(s) {
      var i, j :| 0 < i && i + 1 < j && j + 1 < |s| && s[i] == '@' && s[j] == '.'
        && forall k :: 0 <= k < |s| && k != i ==> Plain(s[k]);
      var a, b, c := s[..i], s[i + 1..j], s[j + 1..];
      assert s == a + "@" + b + "." + c;
      assert AllPlain(a) by {
        forall k | 0 <= k < |a| ensures Plain(a[k]) {
          assert a[k] == s[k];
        }
      }
      assert AllPlain(b) by {
        forall k | 0 <= k < |b| ensures Plain(b[k]) {
          assert b[k] == s[i + 1 + k];
        }
      }
      assert AllPlain(c) by {
        forall k | 0 <= k < |c| ensures Plain(c[k]) {
          assert c[k] == s[j + 1 + k];
        }
      }
    }
    if InEmailLanguage(s) {
      var a: string, b: string, c: string :|
        a != [] && b != [] && c != [] && AllPlain(a) && AllPlain(b) && AllPlain(c) && s == a + "@" + b + "." + c;
      var i, j := |a|, |a| + 1 + |b|;
      assert s[i] == '@' && s[j] == '.';
      forall k | 0 <= k < |s| && k != i ensures Plain(s[k]) {
        if k < i {
          assert s[k] == a[k];
        } else if k < j {
          assert s[k] == b[k - i - 1];
        } else if k > j {
          assert s[k] == c[k - j - 1];
        }
      }
    }
  }

  /** The outcome of `validate`; each failure raises its own alert. */
  datatype Verdict = Valid | MissingRequired | BadEmail | ShortPassword
  {
    function Alert(): string
    {
      match this
      case Valid => ""
      case MissingRequired => "Username, email and password are required"
      case BadEmail => "Invalid email format"
      case ShortPassword => "Password must be at least 6 characters"
    }
  }

  /** The minimum password length, in UTF-16 code units. */
  const MinPasswordLength: nat := 6

  /** `validate`: the required fields first, then the email shape, then the
      password length. The full name is optional. */
  function Validate(f: SignupForm): (v: Verdict)
    ensures v == MissingRequired <==> f.username == "" || f.email == "" || f.password == ""
    ensures v == BadEmail <==>
      f.username != "" && f.email != "" && f.password != "" && !InEmailLanguage(f.email)
    ensures v == Valid <==>
      f.username != "" && InEmailLanguage(f.email) && Utf16Length(f.password) >= MinPasswordLength
  {
    EmailShapedIsPattern(f.email);
    if f.username == "" || f.email == "" || f.password == "" then MissingRequired
    else if !EmailShaped(f.email) then BadEmail
    else if Utf16Length(f.password) < MinPasswordLength then ShortPassword
    else Valid
  }

  /** The request body of `handleSignup`: an empty full name is left out. */
  datatype SignupPayload = SignupPayload(username: string, email: string, password: string, fullName: Option<string>)

  function Payload(f: SignupForm): (p: SignupPayload)
    ensures p.fullName.None? <==> f.fullName == ""
    ensures p.fullName.Some? ==> p.fullName.value == f.fullName
    ensures p.username == f.username && p.email == f.email && p.password == f.password
  {
    SignupPayload(f.username, f.email, f.password, if f.fullName == "" then None else Some(f.fullName))
  }

  /** The screen's state: the form, the loading flag and the alerts shown. */
  class SignupScreenState {
    var form: SignupForm
    var loading: bool
    var alerts: seq<string>
    const device: Device

    constructor (device: Device)
      ensures form == SignupForm("", "", "", "") && !loading && alerts == [] && this.device == device
    {
      form := SignupForm("", "", "", "");
      loading := false;
      alerts := [];
      this.device := device;
    }

    /** `onChange`: one field takes the typed value. */
    method OnChange(field: FormField, value: string)
      modifies this
      ensures loading == old(loading) && alerts == old(alerts)
      ensures form == match field
        case UsernameField => old(form).(username := value)
        case EmailField => old(form).(email := value)
        case FullNameField => old(form).(fullName := value)
        case PasswordField => old(form).(password := value)
    {
      match field {
        case UsernameField => form := form.(username := value);
        case EmailField => form := form.(email := value);
        case FullNameField => form := form.(fullName := value);
        case PasswordField => form := form.(password := value);
      }
    }

    /** `onSubmit`; `o` is the server's answer to the signup request, if one
        is sent. Returns the payload sent, if any. While loading, the screen
        shows a spinner instead of the form, so there is nothing to submit. */
    method OnSubmit(o: ServerOutcome) returns (sent: Option<SignupPayload>)
      requires !loading
      modifies this, device
      ensures form == old(form) && !loading
      ensures Validate(form) != Valid ==>
        && sent.None? && alerts == old(alerts) + [Validate(form).Alert()]
        && device.storage == old(device.storage) && device.cache == old(device.cache)
      ensures Validate(form) == Valid ==>
        && sent == Some(Payload(form)) && alerts == old(alerts)
        && device.storage == StorageAfter(old(device.storage), o)
        && device.cache == AfterMutation(old(device.cache), Signup)
    {
      var verdict := Validate(form);
      if verdict != Valid {
        alerts := alerts + [verdict.Alert()];
        return None;
      }
      loading := true;
      var result := device.HandleSignup(o);
      loading := false;
      return Some(Payload(form));
    }
  }

  /** A form the client accepts gets past the server's required-field check
      and has a well-formed email. */
  lemma ValidFormHasEmail(f: SignupForm)
    requires Validate(f) == Valid
    ensures f.username != "" && f.email != "" && f.password != ""
    ensures '@' in f.email
  {
    EmailShapedIsPattern(f.email);
    var i, j :| 0 < i && i + 1 < j && j + 1 < |f.email| && f.email[i] == '@' && f.email[j] == '.'
      && forall k :: 0 <= k < |f.email| && k != i ==> Plain(f.email[k]);
  }
}
