/** Properties that join the client and the server models: what the client
    shows or sends against what the server does with it. */
module CrossChecks {
  import opened Common
  import opened Text
  import opened Models
  import FollowSpec
  import UserSearch
  import AuthInput
  import SessionAuth
  import Api = ApiServices
  import UseAuth
  import SignupScreen
  import UserProfileScreen
  import UserSearchScreen

  /** The value of a request header, as the server reads it, looked up by
      the exact name the client sets (Django's lookup also ignores case). */
  function Header(h: map<string, string>, name: string): (v: Option<string>)
    ensures v.Some? <==> name in h
    ensures v.Some? ==> v.value == h[name]
  {
    if name in h then Some(h[name]) else None
  }

  /** A private user who already asked to follow the caller makes the
      caller's follow answer 200 without creating any request, yet the
      profile screen, which looks only at the status, shows the caller's
      request as pending. */
  lemma PendingShownWithoutRequest()
    ensures var t := Tables({1, 2}, map[2 := Profile("", "", true)], {}, [FriendRequest(0, 2, 1, Pending)],
                            1, map[], {}, map[], map[], {});
      var res := FollowSpec.Follow(t, 1, 2);
      var p := UserProfileScreen.ProfileData(Some(2), None, None, None, Some(true), None, None);
      && res == (t, FollowSpec.TheyAlreadyRequested)
      && res.1.Code() == 200
      && FollowSpec.SentBy(res.0, 1) == []
      && UserProfileScreen.AfterFollow(p) == UserProfileScreen.Pending
  {
    var t := Tables({1, 2}, map[2 := Profile("", "", true)], {}, [FriendRequest(0, 2, 1, Pending)],
                    1, map[], {}, map[], map[], {});
    assert FollowSpec.FirstIndex(t.requests, 1, 2) == 1;
    assert FollowSpec.HasPending(t.requests, 2, 1) by {
      assert FollowSpec.FirstIndex(t.requests, 2, 1) == 0;
    }
  }

  /** The client sends any query of two UTF-16 code units, the server strips
      it and refuses anything shorter than two characters: a padded letter
      and a single character outside the Basic Multilingual Plane are both
      sent and both answered with nothing. */
  lemma SentQueriesTheServerRefuses(rows: seq<UserSearch.UserRow>)
    ensures !UserSearchScreen.Skip(" a") && UserSearch.Search(rows, Some(" a")) == []
    ensures !UserSearchScreen.Skip("\U{1F600}") && UserSearch.Search(rows, Some("\U{1F600}")) == []
  {
    assert Lead(" a", PySpace) == 1;
    assert Trail(" a", PySpace) == 0;
    assert Lead("\U{1F600}", PySpace) == 0;
    assert Trail("\U{1F600}", PySpace) == 0;
  }

  /** Every query the server searches is also sent by the client: two
      characters after stripping are at least two UTF-16 code units before. */
  lemma ServerSearchesOnlySentQueries(raw: string)
    ensures |UserSearch.Query(Some(raw))| >= UserSearch.MinQueryLength ==> !UserSearchScreen.Skip(raw)
  {
  }

  /** A signup form the client accepts always gets past the server's
      required-field check. */
  lemma ClientSignupPassesRequiredFields(f: SignupScreen.SignupForm, accounts: set<AuthInput.Account>)
    requires SignupScreen.Validate(f) == SignupScreen.Valid
    ensures var p := SignupScreen.Payload(f);
      AuthInput.CheckSignup(accounts, Some(p.username), Some(p.email), Some(p.password)) != AuthInput.MissingFields
  {
    SignupScreen.ValidFormHasEmail(f);
  }

  /** After a successful login the next request carries the session id, and
      the server authenticates it exactly when the session resolves; after a
      logout the request carries no session id and the server treats it as
      anonymous. */
  lemma SessionHeaderFollowsStorage(h: map<string, string>, storage: map<string, string>, sessionId: string,
                                    store: map<string, SessionAuth.Session>, users: set<UserId>, now: int)
    requires "X-Session-ID" !in h && sessionId != ""
    ensures var loggedIn := UseAuth.StorageAfter(storage, UseAuth.Succeeded(sessionId));
      var header := Header(Api.Prepared(h, loggedIn), "X-Session-ID");
      && header == Some(sessionId)
      && (SessionAuth.Authentication(header, SessionAuth.Resolve(store, users, header, now).1).Authenticated?
          <==> SessionAuth.Resolve(store, users, Some(sessionId), now).1.Some?)
    ensures var header := Header(Api.Prepared(h, storage - {UseAuth.SessionKey}), "X-Session-ID");
      && header.None?
      && SessionAuth.Authentication(header, None) == SessionAuth.Anonymous
  {
    var after := storage - {UseAuth.SessionKey};
    assert "session_id" !in after;
  }
}
