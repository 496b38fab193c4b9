/** The input checks of `AuthViewSet.signup` and `AuthViewSet.login`
    (backend/api/views.py). Creating the user, password hashing and the
    session login are Django's and are not modelled; `login`'s credential
    check is an input. A request field is `None` when absent. */
module AuthInput {
  import opened Common

  /** An existing account, as far as the uniqueness check sees it. */
  datatype Account = Account(username: string, email: string)

  datatype SignupCheck =
    | MissingFields    // 400 'Username, email, and password are required.'
    | AlreadyTaken     // 400 'User with this username or email already exists.'
    | SignupAllowed    // goes on to create the user: 201
  {
    function Code(): int
    {
      match this
      case MissingFields => 400
      case AlreadyTaken => 400
      case SignupAllowed => 201
    }
  }

  /** The first two steps of `signup`. */
  function CheckSignup(accounts: set<Account>, username: Option<string>, email: Option<string>,
                       password: Option<string>): (c: SignupCheck)
    ensures c == MissingFields <==> !(Truthy(username) && Truthy(email) && Truthy(password))
    ensures c == SignupAllowed <==>
      && Truthy(username) && Truthy(email) && Truthy(password)
      && forall a :: a in accounts ==> a.username != username.value && a.email != email.value
  {
    if !(Truthy(username) && Truthy(email) && Truthy(password)) then MissingFields
    else if exists a :: a in accounts && (a.username == username.value || a.email == email.value) then AlreadyTaken
    else SignupAllowed
  }

  datatype LoginCheck =
    | LoginMissingFields   // 400 'Username and password are required.'
    | BadCredentials       // 400 'Invalid username or password.'
    | LoggedIn             // 200 with the session id
  {
    function Code(): int
    {
      match this
      case LoginMissingFields => 400
      case BadCredentials => 400
      case LoggedIn => 200
    }
  }

  /** `login`; `credentialsValid` is what Django's `authenticate` answers. */
  function CheckLogin(username: Option<string>, password: Option<string>, credentialsValid: bool): (c: LoginCheck)
    ensures c == LoggedIn <==> Truthy(username) && Truthy(password) && credentialsValid
    ensures c == LoginMissingFields <==> !Truthy(username) || !Truthy(password)
  {
    if !Truthy(username) || !Truthy(password) then LoginMissingFields
    else if !credentialsValid then BadCredentials
    else LoggedIn
  }

  /** Once an account exists, signing up again with its username or its
      email is refused, whatever the other fields. */
  lemma SignupTwiceRefused(accounts: set<Account>, username: string, email: string, password: string,
                           otherEmail: string, otherName: string)
    requires CheckSignup(accounts, Some(username), Some(email), Some(password)) == SignupAllowed
    requires otherEmail != "" && otherName != ""
    ensures var after := accounts + {Account(username, email)};
      && CheckSignup(after, Some(username), Some(otherEmail), Some(password)) == AlreadyTaken
      && CheckSignup(after, Some(otherName), Some(email), Some(password)) == AlreadyTaken
  {
    var after := accounts + {Account(username, email)};
    assert Account(username, email) in after;
  }
}
