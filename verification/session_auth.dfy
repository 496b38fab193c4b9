/** Session-key resolution and the `X-Session-ID` authentication of the
    backend (backend/api/auth.py). Time is an integer clock passed in as `now`;
    the session store is a map from session key to session row. */
module SessionAuth {
  import opened Common
  import opened Models

  /** A row of the session store: its expiry and the user id decoded from its
      data (`None` when `_auth_user_id` is missing or empty). */
  datatype Session = Session(expireDate: Option<int>, authUserId: Option<UserId>)

  /** The session has an expiry and it lies strictly in the past. */
  predicate Expired(s: Session, now: int)
  {
    s.expireDate.Some? && s.expireDate.value < now
  }

  /** What `get_user_from_session_key` does: the user the key resolves to,
      and the store afterwards (an expired session is deleted). */
  function Resolve(store: map<string, Session>, users: set<UserId>, key: Option<string>, now: int)
    : (res: (map<string, Session>, Option<UserId>))
    ensures res.1.Some? <==>
      && key.Some? && key.value != "" && key.value in store
      && !Expired(store[key.value], now)
      && store[key.value].authUserId.Some? && store[key.value].authUserId.value in users
    ensures res.1.Some? ==> res.1 == store[key.value].authUserId
    ensures res.0 != store <==> key.Some? && key.value != "" && key.value in store && Expired(store[key.value], now)
    ensures res.0 != store ==> res.0 == store - {key.value}
  {
    if key.None? || key.value == "" then (store, None)
    else if key.value !in store then (store, None)
    else
      var s := store[key.value];
      if Expired(s, now) then
        assert key.value !in store - {key.value};
        (store - {key.value}, None)
      else if s.authUserId.None? then (store, None)
      else if s.authUserId.value !in users then (store, None)
      else (store, s.authUserId)
  }

  /** The outcome of `SessionIDAuthentication.authenticate`. */
  datatype AuthOutcome =
    | Anonymous                 // no header: returns None
    | Failed                    // AuthenticationFailed
    | Authenticated(user: UserId)

  /** `authenticate` given the header and the result of resolving it. */
  function Authentication(header: Option<string>, resolved: Option<UserId>): (a: AuthOutcome)
    ensures a == Anonymous <==> header.None? || header.value == ""
    ensures a.Authenticated? <==> header.Some? && header.value != "" && resolved.Some?
    ensures a.Authenticated? ==> a.user == resolved.value
  {
    if header.None? || header.value == "" then Anonymous
    else if resolved.None? then Failed
    else Authenticated(resolved.value)
  }

  /** Resolving the same key twice yields the same user, and the second call
      leaves the store alone. */
  lemma ResolveTwice(store: map<string, Session>, users: set<UserId>, key: Option<string>, now: int)
    ensures var (after, u) := Resolve(store, users, key, now);
      Resolve(after, users, key, now) == (after, u)
  {
    var (after, u) := Resolve(store, users, key, now);
    if after != store {
      assert key.value !in after;
    }
  }

  /** A session whose expiry equals the current time is still valid, and one
      second later it is gone. */
  lemma ExpiryBoundary(store: map<string, Session>, users: set<UserId>, key: string, now: int)
    requires key != "" && key in store
    requires store[key] == Session(Some(now), store[key].authUserId)
    requires store[key].authUserId.Some? && store[key].authUserId.value in users
    ensures Resolve(store, users, Some(key), now) == (store, store[key].authUserId)
    ensures Resolve(store, users, Some(key), now + 1) == (store - {key}, None)
  {
  }

  /** The session store, which key resolution may shrink. */
  class SessionStore {
    var sessions: map<string, Session>

    constructor (sessions: map<string, Session>)
      ensures this.sessions == sessions
    {
      this.sessions := sessions;
    }

    /** `get_user_from_session_key`. */
    method UserFromSessionKey(users: set<UserId>, key: Option<string>, now: int) returns (u: Option<UserId>)
      modifies this
      ensures (sessions, u) == Resolve(old(sessions), users, key, now)
    {
      if key.None? || key.value == "" {
        return None;
      }
      if key.value !in sessions {
        return None;
      }
      var s := sessions[key.value];
      if s.expireDate.Some? && s.expireDate.value < now {
        sessions := sessions - {key.value};
        return None;
      }
      if s.authUserId.None? {
        return None;
      }
      if s.authUserId.value !in users {
        return None;
      }
      return s.authUserId;
    }

    /** `SessionIDAuthentication.authenticate` on the `X-Session-ID` header. */
    method Authenticate(users: set<UserId>, header: Option<string>, now: int) returns (a: AuthOutcome)
      modifies this
      ensures a == Authentication(header, Resolve(old(sessions), users, header, now).1)
      ensures sessions == Resolve(old(sessions), users, header, now).0
    {
      if header.None? || header.value == "" {
        return Anonymous;
      }
      var u := UserFromSessionKey(users, header, now);
      if u.None? {
        return Failed;
      }
      return Authenticated(u.value);
    }
  }
}
