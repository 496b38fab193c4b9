/** The client's session handling (forntend/instagram/src/hooks/useAuth.ts):
    signup and login store the session id the server returns, logout forgets
    it and empties the API cache. The device's key-value storage is a map and
    the server's answer is an input. */
module UseAuth {
  import opened Common
  import opened ApiServices

  /** The storage key of the session id. */
  const SessionKey: string := "session_id"

  /** What the awaited `….unwrap()` gives: the response, or the thrown error
      with its `data.error`, `data.message` and `message` fields. */
  datatype ServerOutcome =
    | Succeeded(sessionId: string)
    | Threw(dataError: Option<string>, dataMessage: Option<string>, message: Option<string>)

  /** `AuthResult`: `{success}` or `{success: false, error}`. */
  datatype AuthResult = AuthResult(success: bool, error: Option<string>)

  /** `e?.data?.error || e?.data?.message || e?.message || fallback`. */
  function ErrorMessage(o: ServerOutcome, fallback: string): (msg: string)
    requires o.Threw?
    ensures Truthy(o.dataError) ==> msg == o.dataError.value
    ensures !Truthy(o.dataError) && Truthy(o.dataMessage) ==> msg == o.dataMessage.value
    ensures !Truthy(o.dataError) && !Truthy(o.dataMessage) && Truthy(o.message) ==> msg == o.message.value
    ensures !Truthy(o.dataError) && !Truthy(o.dataMessage) && !Truthy(o.message) ==> msg == fallback
  {
    var cands := [o.dataError, o.dataMessage, o.message];
    assert cands[0] == o.dataError && cands[1] == o.dataMessage && cands[2] == o.message;
    FirstTruthy(cands, fallback)
  }

  /** The result of `handleSignup`/`handleLogin`, which catch every error. */
  function Result(o: ServerOutcome, fallback: string): (r: AuthResult)
    ensures r.success <==> o.Succeeded?
    ensures r.success ==> r.error.None?
    ensures !r.success ==> r.error == Some(ErrorMessage(o, fallback))
  {
    match o
    case Succeeded(_) => AuthResult(true, None)
    case Threw(_, _, _) => AuthResult(false, Some(ErrorMessage(o, fallback)))
  }

  /** The storage after `handleSignup`/`handleLogin`. */
  function StorageAfter(storage: map<string, string>, o: ServerOutcome): (s: map<string, string>)
    ensures o.Succeeded? ==> SessionKey in s && s[SessionKey] == o.sessionId
    ensures o.Succeeded? ==> forall k :: k in storage && k != SessionKey ==> k in s && s[k] == storage[k]
    ensures o.Threw? ==> s == storage
  {
    if o.Succeeded? then storage[SessionKey := o.sessionId] else storage
  }

  /** The phone: its key-value storage and the API cache. */
  class Device {
    var storage: map<string, string>
    var cache: Cache

    constructor (storage: map<string, string>, cache: Cache)
      ensures this.storage == storage && this.cache == cache
    {
      this.storage := storage;
      this.cache := cache;
    }

    /** The shared body of `handleSignup` and `handleLogin`: the mutation
        settles (invalidating its tags), then the session id is stored on
        success. */
    method Authenticate(m: Mutation, o: ServerOutcome, fallback: string) returns (r: AuthResult)
      modifies this
      ensures r == Result(o, fallback)
      ensures storage == StorageAfter(old(storage), o)
      ensures cache == AfterMutation(old(cache), m)
    {
      cache := AfterMutation(cache, m);
      match o {
        case Succeeded(id) =>
          storage := storage[SessionKey := id];
          r := AuthResult(true, None);
        case Threw(_, _, _) =>
          r := AuthResult(false, Some(ErrorMessage(o, fallback)));
      }
    }

    /** `handleSignup`. */
    method HandleSignup(o: ServerOutcome) returns (r: AuthResult)
      modifies this
      ensures r == Result(o, "Signup failed")
      ensures storage == StorageAfter(old(storage), o)
      ensures cache == AfterMutation(old(cache), Signup)
    {
      r := Authenticate(Signup, o, "Signup failed");
    }

    /** `handleLogin`. */
    method HandleLogin(o: ServerOutcome) returns (r: AuthResult)
      modifies this
      ensures r == Result(o, "Login failed")
      ensures storage == StorageAfter(old(storage), o)
      ensures cache == AfterMutation(old(cache), Login)
    {
      r := Authenticate(Login, o, "Login failed");
    }

    /** `handleLogout`: the server's answer is ignored; the session id is
        removed and the cache emptied on every path. */
    method HandleLogout(o: ServerOutcome)
      modifies this
      ensures storage == old(storage) - {SessionKey}
      ensures cache == map[]
    {
      cache := AfterMutation(cache, Logout);
      storage := storage - {SessionKey};
      cache := map[];
    }
  }

  /** A failed attempt always comes with a non-empty message. */
  lemma FailureHasMessage(o: ServerOutcome, fallback: string)
    requires fallback != ""
    ensures !Result(o, fallback).success ==> Result(o, fallback).error.Some? && Result(o, fallback).error.value != ""
  {
  }

  /** Logging in then out leaves the storage as it was, except that any
      earlier session id is gone too. */
  lemma LoginThenLogout(storage: map<string, string>, o: ServerOutcome)
    ensures StorageAfter(storage, o) - {SessionKey} == storage - {SessionKey}
  {
  }
}
