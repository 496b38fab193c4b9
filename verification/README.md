# Instagram clone: relationship state machine, cache tags and client state, in Dafny

This project models the logic core of a photo-sharing social network. The
system has a Django REST backend (`backend/api`) and a React Native client
(`forntend/instagram/src`). The model covers four parts:

- **The server's relationship state machine.**
  - The tables are follows, friend requests, privacy flags, likes, comments and story views.
  - The actions that change them are `follow`, `unfollow`, `accept`, `reject`, the like toggle, comment creation and `mark_viewed`.
  - The list queries are `pending`, `sent`, `friends` and the comment list.
  - Also covered: the user search query, the owner-or-read-only permission, the `X-Session-ID` session authentication with expiry, and the required-field checks of signup and login.
  - `FollowSpec` and `InteractionSpec` state each action as a function from the old tables to the new tables and the HTTP reply. `Views.Backend` holds the tables as fields and performs the same steps in place, with loops over the request list. Each of its methods is proved to match the function. `FollowProps` and `InteractionProps` prove what sequences of the modelled actions do, and that each of them keeps the request table's invariant.
- **The client's cache-tag table.**
  - This is the tags each endpoint of `services.ts` provides or invalidates.
  - The cache itself is abstract: invalidating a tag type marks stale every entry that provides that type.
  - It also covers the URL builders and `prepareHeaders`.
- **The client's follow state.**
  - `UserProfileScreen` moves between not-following, following and pending only after the server accepts the call.
  - `ProfileScreen` parses its route parameter and sets its state whatever the call's outcome.
- **The client's session handling and form logic.**
  - `useAuth` stores and forgets `session_id` and chooses error messages.
  - Signup and login validation, the profile editor's payload, the privacy toggle, and the search screen's gate, list normalisation and keys.

`CrossChecks` joins the two sides:
- The client shows "pending" after a 200 reply that created no request.
- The client sends queries that the server then refuses.
- Every signup form the client accepts passes the server's required-field check.
- The session header after login and after logout.

Both sides follow their own code. Python's `strip` and JavaScript's `trim`
remove different character sets, and both are modelled. JavaScript's `.length`
counts UTF-16 code units, and Python's `len` counts code points. Truthiness
follows each language: `||`, `??` and `not`. Time is an integer number of
seconds. The identifiers the database or a UUID generator assigns are
parameters.

## Model

| member | source | states |
|---|---|---|
| Common.FirstTruthy | forntend/instagram/src/hooks/useAuth.ts:30-31 | `a \|\| b \|\| … \|\| fallback`: the first present, non-empty candidate; the fallback only when there is none; never empty when the fallback is not |
| Text.Trim | backend/api/views.py:620 | the result is a contiguous slice of the input with no whitespace of the given class at either end, everything cut off is whitespace, and it is empty exactly when the input is all whitespace |
| Text.TrimIdempotent | forntend/instagram/src/screens/profile/EditProfileScreen.tsx:67-68 | trimming a trimmed string changes nothing |
| Text.Utf16Length | forntend/instagram/src/screens/user/UserSearchScreen.tsx:26 | JavaScript's `.length` lies between the number of characters and twice that |
| Text.ContainsIgnoreCase | backend/api/views.py:624 | `icontains` holds exactly when the case-folded needle occurs in the case-folded text, and whenever the exact needle occurs |
| Text.IntToString | forntend/instagram/src/store/api/services.ts:170 | a number printed in a URL is non-empty and starts with '-' exactly when negative |
| Text.NatToStringRoundTrip | forntend/instagram/src/screens/user/UserSearchScreen.tsx:85 | reading back the decimal digits printed for n gives n |
| Text.IntToStringInjective | forntend/instagram/src/screens/user/UserSearchScreen.tsx:85 | distinct integers print as distinct strings |
| Models.Story.Save | backend/api/models.py:121-125 | a story saved without an expiry expires 24 hours after the save time; an existing expiry is kept |
| FollowSpec.FirstIndex | backend/api/views.py:169 | `.first()` on the requests from sender to receiver: the first match in list order, or none; when ids increase along the list, its id is lower than that of every other match |
| FollowSpec.IndexOfId | backend/api/views.py:240 | the position of the request with a given primary key, or none when no request has it |
| FollowSpec.RemoveAt | backend/api/views.py:182-183 | deleting one request keeps only requests that were there |
| FollowSpec.Follow | backend/api/views.py:149-192 | 404 exactly for an unknown target, 400 exactly for oneself; an existing edge answers "already following" with no change; a private target never gains an edge and a public one never gains a request; a public target ends up followed; only "request sent" creates a request and advances the id counter; no other table changes |
| FollowSpec.Unfollow | backend/api/views.py:195-202 | the edge caller→target is gone and every request from caller to target is deleted, the other requests keep their order, and nothing else changes |
| FollowSpec.Gate | backend/api/views.py:228-246 | the gate passes exactly when the request with this id is addressed to the caller and pending, and then yields that request's position |
| FollowSpec.GateError | backend/api/views.py:240-246 | by the first failing check: 404 exactly when no request with this id has the caller as sender or receiver, 403 exactly when the caller is its sender but not its receiver, 400 exactly when the caller is its receiver |
| FollowSpec.Accept | backend/api/views.py:235-259 | succeeds exactly when the gate passes; then the request is accepted and both follow edges exist; otherwise nothing changes |
| FollowSpec.Reject | backend/api/views.py:262-273 | succeeds exactly when the gate passes; then the request is rejected and the follow edges are untouched; otherwise nothing changes |
| FollowSpec.PendingFor | backend/api/views.py:276-279 | exactly the pending requests addressed to the caller |
| FollowSpec.SentBy | backend/api/views.py:282-285 | exactly the pending requests sent by the caller |
| FollowSpec.FriendsOf | backend/api/views.py:288-295 | one entry per accepted request involving the caller, each being the other party, and every such party listed |
| FollowProps.RemoveFirstIsFilter | backend/api/views.py:182-186 | with at most one request per pair, deleting the first request from caller to target removes every such request |
| FollowProps.FirstPendingIsAnyPending | backend/api/views.py:169-175 | with at most one request per pair, "the first request is pending" is the same as "a pending request exists" |
| FollowProps.FollowPrivate | backend/api/views.py:165-187 | on a private target: an own pending request or a reverse pending request changes nothing; otherwise all old requests caller→target are replaced by one new pending request |
| FollowProps.NoCrossedPendingSubset | backend/api/views.py:172-179 | keeping only pending requests that already existed cannot create a pair of crossed pending requests |
| FollowProps.FollowKeepsConsistent | backend/api/views.py:149-192 | `follow` keeps ids increasing, at most one request per pair and no two users with pending requests to each other |
| FollowProps.UnfollowKeepsConsistent | backend/api/views.py:195-202 | `unfollow` keeps the same invariant |
| FollowProps.SettleKeepsConsistent | backend/api/views.py:249-250 | settling a request to a non-pending status keeps the invariant |
| FollowProps.AcceptKeepsConsistent | backend/api/views.py:235-259 | `accept` keeps the invariant |
| FollowProps.RejectKeepsConsistent | backend/api/views.py:262-273 | `reject` keeps the invariant |
| FollowProps.DecisionRefusals | backend/api/views.py:235-273 | `accept` answers 404 exactly for a request the caller neither sent nor received, 403 exactly for one the caller only sent, 400 exactly for one the caller received that is no longer pending, and accepts exactly when it is the caller's and pending; `reject` answers the same codes and rejects in the same case |
| FollowProps.FollowPublicTwice | backend/api/views.py:159-192 | following a public user twice: the second call finds the edge and changes nothing |
| FollowProps.UnfollowIdempotent | backend/api/views.py:195-202 | unfollowing twice is unfollowing once |
| FollowProps.IdsUnique | backend/api/models.py:33-46 | with increasing ids, a primary key names one request |
| FollowProps.RequestThenAccept | backend/api/views.py:165-259 | the private-account round trip: follow creates a pending request in the target's pending list and the caller's sent list; the target accepts it; both then follow each other and are each in the other's friends list |
| FollowProps.RequestThenUnfollow | backend/api/views.py:195-202 | follow then unfollow on a private account leaves no pending request and no edge |
| InteractionSpec.ToggleLike | backend/api/views.py:389-401 | 404 exactly for an unknown post, 403 exactly for a caller who neither wrote the post nor follows its author; otherwise the like is flipped, `liked` says whether it now exists, and no other like or table changes |
| InteractionSpec.CreateComment | backend/api/views.py:436-453 | 403 exactly when a well-formed comment comes from a non-follower; 201 exactly when it is well formed (its stripped text not blank and free of NUL characters), allowed and any parent is on the same post; then exactly one comment is added under the new id, holding the stripped, non-empty text |
| InteractionSpec.StoredText | backend/api/models.py:77 | the text a `TextField` serializer field stores: no whitespace at either end, no longer than the input, and empty exactly when the input is all whitespace |
| InteractionSpec.ListComments | backend/api/views.py:419-434 | with a post: 404 for an unknown post, 403 behind the same gate, else exactly its top-level comments; without one: exactly the caller's comments |
| InteractionSpec.MarkViewed | backend/api/views.py:570-588 | 404 for an unknown story, 400 for one's own story; otherwise the view is recorded, `is_new_view` says whether it was absent, and the total is the story's number of viewers afterwards |
| InteractionProps.ToggleTwice | backend/api/views.py:397-401 | two toggles restore the tables, and the two replies disagree |
| InteractionProps.MarkViewedIdempotent | backend/api/views.py:577-588 | a second view adds nothing, is not new, and reports the same total |
| InteractionProps.CreatedCommentListed | backend/api/views.py:419-453 | a created comment appears in the post's list exactly when it is top-level, and always in the caller's own list |
| InteractionProps.BlankCommentRefused | backend/api/models.py:77 | a comment of only whitespace, or one holding a NUL character, is refused with 400 and changes nothing; " hi " is stored as "hi" |
| InteractionProps.CommentersMayList | backend/api/views.py:419-446 | whoever may comment on a post may list its comments |
| Views.Backend.FindFirst | backend/api/views.py:169 | the scan stops at the first request from sender to receiver |
| Views.Backend.AnyPending | backend/api/views.py:172 | the scan finds a pending request from sender to receiver exactly when one exists |
| Views.Backend.FindId | backend/api/views.py:240 | the scan finds the position of a primary key |
| Views.Backend.RequestsNotFromTo | backend/api/views.py:200 | the loop keeps, in order, exactly the requests not from sender to receiver |
| Views.Backend.Follow | backend/api/views.py:149-192 | the new tables and the reply are those of `FollowSpec.Follow` |
| Views.Backend.Unfollow | backend/api/views.py:195-202 | the new tables are those of `FollowSpec.Unfollow` |
| Views.Backend.Settle | backend/api/views.py:249-250 | only the status of one request changes |
| Views.Backend.Accept | backend/api/views.py:235-259 | the new tables and the reply are those of `FollowSpec.Accept` |
| Views.Backend.Reject | backend/api/views.py:262-273 | the new tables and the reply are those of `FollowSpec.Reject` |
| Views.Backend.ToggleLike | backend/api/views.py:389-401 | the new tables and the reply are those of `InteractionSpec.ToggleLike` |
| Views.Backend.CreateComment | backend/api/views.py:436-453 | the new tables and the reply are those of `InteractionSpec.CreateComment` |
| Views.Backend.MarkViewed | backend/api/views.py:570-588 | the new tables and the reply are those of `InteractionSpec.MarkViewed` |
| UserSearch.Search | backend/api/views.py:619-625 | nothing for a stripped query under 2 characters; otherwise at most 20 users, each in the table and matching by username or full name; every match when there are at most 20, exactly 20 when there are more; distinct ids stay distinct |
| UserSearch.DistinctIdsFiltered | backend/api/views.py:625 | filtering a list with distinct ids keeps them distinct |
| SessionAuth.Resolve | backend/api/auth.py:10-29 | a user exactly when the key is non-empty, stored, not expired, and names an existing user; the store changes exactly when the key's session has expired, and then only that session is deleted |
| SessionAuth.Authentication | backend/api/auth.py:37-44 | no header or an empty one is anonymous; a header authenticates exactly when it resolves, as the resolved user; otherwise it fails |
| SessionAuth.ResolveTwice | backend/api/auth.py:19-22 | resolving the same key twice gives the same user, and the second call deletes nothing more |
| SessionAuth.ExpiryBoundary | backend/api/auth.py:19 | a session whose expiry equals the current time still resolves; one second later it is deleted |
| SessionAuth.SessionStore.UserFromSessionKey | backend/api/auth.py:10-29 | the new store and the user are those of `Resolve` |
| SessionAuth.SessionStore.Authenticate | backend/api/auth.py:37-44 | the outcome and the new store are those of `Authentication` over `Resolve` |
| Permissions.Owner | backend/api/permissions.py:9 | the owner is the object's user when it has one, else its sender |
| Permissions.HasObjectPermission | backend/api/permissions.py:5-10 | safe methods are always allowed; any other method exactly when a user is signed in and is the owner |
| Permissions.OneWriter | backend/api/permissions.py:9-10 | at most one user may write a given object |
| Permissions.NoOwnerNoWrite | backend/api/permissions.py:9-10 | an object with no owner, or an anonymous request, is never written |
| Permissions.UserBeatsSender | backend/api/permissions.py:9 | when both fields are set, the user field decides and the sender may not write |
| AuthInput.CheckSignup | backend/api/views.py:56-68 | 400 "required" exactly when a field is missing or empty; allowed exactly when all are present and no account shares the username or the email |
| AuthInput.CheckLogin | backend/api/views.py:83-94 | 400 "required" exactly when either field is missing or empty; logged in exactly when both are present and the credentials are valid |
| AuthInput.SignupTwiceRefused | backend/api/views.py:66-68 | once an account exists, signing up again with its username or its email is refused |
| ApiServices.PostTags | forntend/instagram/src/store/api/services.ts:175 | one `{Posts, id}` tag per returned post, in order |
| ApiServices.Provides | forntend/instagram/src/store/api/services.ts:57-202 | the post queries provide 'Posts' first, only 'Posts' without a result, the per-post tags with one, and `getUserPosts` adds its profile tag last; search provides nothing |
| ApiServices.ProfileTagId | forntend/instagram/src/store/api/services.ts:200 | `userId \|\| 'ME'`: 'ME' exactly for a missing or zero id |
| ApiServices.KindsOf | forntend/instagram/src/store/api/services.ts:27-39 | the tag types an entry's tags mention |
| ApiServices.Store | forntend/instagram/src/store/api/services.ts:57-202 | a stored result is a fresh entry carrying the tags its query provides |
| ApiServices.Invalidate | forntend/instagram/src/store/api/services.ts:42-188 | exactly the entries sharing a type with the invalidated set become stale, tags unchanged |
| ApiServices.InvalidateIdempotent | forntend/instagram/src/store/api/services.ts:42-188 | invalidating the same types twice is invalidating them once |
| ApiServices.InvalidateCompose | forntend/instagram/src/store/api/services.ts:42-188 | two invalidations in a row are one invalidation of both sets |
| ApiServices.LogoutStalesMe | forntend/instagram/src/store/api/services.ts:52-61 | after `logout` a cached `getMe` result is stale |
| ApiServices.SendRequestKeepsFollowLists | forntend/instagram/src/store/api/services.ts:94-131 | `sendFriendRequest` leaves the cached follower and following lists fresh |
| ApiServices.AcceptStalesFollowLists | forntend/instagram/src/store/api/services.ts:94-139 | `acceptFriendRequest` makes both lists stale |
| ApiServices.SearchNeverInvalidated | forntend/instagram/src/store/api/services.ts:115-121 | no mutation ever stales a search result |
| ApiServices.ProfileEditsStaleMe | forntend/instagram/src/store/api/services.ts:57-87 | `updateProfile`, `uploadProfilePicture` and `updatePrivacy` stale `getMe` and every profile fetched by username |
| ApiServices.FeedUrl | forntend/instagram/src/store/api/services.ts:169-170 | the feed URL starts with the feed path followed by the page |
| ApiServices.FeedUrlShape | forntend/instagram/src/store/api/services.ts:169-170 | the page (1 when omitted) and then `&limit=` with the limit (10 when omitted) can be read back from the feed URL |
| ApiServices.FeedDefaults | forntend/instagram/src/store/api/services.ts:169 | a missing page is page 1 and a missing limit is 10 |
| ApiServices.UserPostsUrl | forntend/instagram/src/store/api/services.ts:190-194 | another user's posts exactly when the id is present and non-zero; otherwise the own-posts URL with the limit, 30 by default |
| ApiServices.UserPostsUrlShape | forntend/instagram/src/store/api/services.ts:191-193 | the user id and the limit can be read back from the URL |
| ApiServices.Headers.Prepare | forntend/instagram/src/store/api/services.ts:17-25 | the headers become those of `Prepared` |
| ApiServices.Prepared | forntend/instagram/src/store/api/services.ts:17-25 | a non-empty stored session id is set as `X-Session-ID` and every other header is kept; without one the headers are unchanged |
| UseAuth.ErrorMessage | forntend/instagram/src/hooks/useAuth.ts:30-31 | the error is `data.error`, else `data.message`, else `message`, else the fallback, each taken only when non-empty |
| UseAuth.Result | forntend/instagram/src/hooks/useAuth.ts:24-47 | success exactly when the server call succeeded; a failure carries the chosen message |
| UseAuth.StorageAfter | forntend/instagram/src/hooks/useAuth.ts:26-28 | success stores the session id and keeps every other key; failure leaves storage as it was |
| UseAuth.Device.Authenticate | forntend/instagram/src/hooks/useAuth.ts:24-47 | the result, the storage and the cache after a signup or login attempt |
| UseAuth.Device.HandleSignup | forntend/instagram/src/hooks/useAuth.ts:24-34 | as above with the fallback 'Signup failed' and the tags of `signup` |
| UseAuth.Device.HandleLogin | forntend/instagram/src/hooks/useAuth.ts:36-47 | as above with the fallback 'Login failed' and the tags of `login` |
| UseAuth.Device.HandleLogout | forntend/instagram/src/hooks/useAuth.ts:49-57 | whatever the server answers, `session_id` is removed, every other key kept, and the cache emptied |
| UseAuth.FailureHasMessage | forntend/instagram/src/hooks/useAuth.ts:29-33 | a failed attempt always carries a non-empty message |
| UseAuth.LoginThenLogout | forntend/instagram/src/hooks/useAuth.ts:36-57 | logging in then out leaves the storage as it was apart from the session key |
| SignupScreen.EmailShapedIsPattern | forntend/instagram/src/screens/auth/SignupScreen.tsx:28-29 | the positional email check accepts exactly the strings of `^[^@\s]+@[^@\s]+\.[^@\s]+$` |
| SignupScreen.Validate | forntend/instagram/src/screens/auth/SignupScreen.tsx:23-38 | the checks run in order: "required" exactly when username, email or password is empty; "invalid email" exactly when all are present and the email fails the pattern; valid exactly when the email matches and the password has at least 6 UTF-16 units |
| SignupScreen.Payload | forntend/instagram/src/screens/auth/SignupScreen.tsx:44-49 | the fields are sent as typed, and an empty full name is left out |
| SignupScreen.SignupScreenState.constructor | forntend/instagram/src/screens/auth/SignupScreen.tsx:11-17 | an empty form, not loading, no alerts |
| SignupScreen.SignupScreenState.OnChange | forntend/instagram/src/screens/auth/SignupScreen.tsx:19-21 | exactly the named field takes the typed value |
| SignupScreen.SignupScreenState.OnSubmit | forntend/instagram/src/screens/auth/SignupScreen.tsx:40-59 | an invalid form raises its verdict's alert and sends nothing; a valid one sends its payload and applies `handleSignup`'s effect; loading is off afterwards on both paths |
| SignupScreen.ValidFormHasEmail | forntend/instagram/src/screens/auth/SignupScreen.tsx:23-38 | a valid form has every required field and an '@' in the email |
| LoginScreen.Validate | forntend/instagram/src/screens/auth/LoginScreen.tsx:21-27 | valid exactly when both fields are non-empty |
| LoginScreen.ShownError | forntend/instagram/src/screens/auth/LoginScreen.tsx:31-36 | no error exactly after a success; after a failure, the non-empty message `handleLogin` chose |
| LoginScreen.LoginScreenState.constructor | forntend/instagram/src/screens/auth/LoginScreen.tsx:13-14 | an empty form and no error |
| LoginScreen.LoginScreenState.OnSubmit | forntend/instagram/src/screens/auth/LoginScreen.tsx:29-40 | an incomplete form raises the alert and sends nothing; a complete one sends, then shows the last attempt's error, and the storage and cache follow `handleLogin` |
| LoginScreen.ErrorTracksLastAttempt | forntend/instagram/src/screens/auth/LoginScreen.tsx:31-36 | a failure always leaves an error on screen, and a success clears it |
| EditProfileScreen.FormFrom | forntend/instagram/src/screens/profile/EditProfileScreen.tsx:33-35 | the `\|\| ''` and `\|\| false` defaults: the fields when present, '' / '' / false otherwise |
| EditProfileScreen.WrittenInitialForm | forntend/instagram/src/screens/profile/EditProfileScreen.tsx:33-35 | as written, the form is always blank |
| EditProfileScreen.InitialForm | forntend/instagram/src/screens/profile/EditProfileScreen.tsx:33-35 | read from the user's nested profile: its name, bio and privacy flag, or the defaults |
| EditProfileScreen.SavePayload | forntend/instagram/src/screens/profile/EditProfileScreen.tsx:66-70 | the name and bio are the trimmed fields with no whitespace at either end; the privacy flag is passed unchanged |
| EditProfileScreen.SaveStable | forntend/instagram/src/screens/profile/EditProfileScreen.tsx:66-70 | saving the saved values again sends the same payload |
| EditProfileScreen.UneditedSaveErasesProfile | forntend/instagram/src/screens/profile/EditProfileScreen.tsx:33-35 | as written, a private user named "Ann" with a bio sends '' / '' / public when saving unedited |
| EditProfileScreen.UneditedSaveKeepsProfile | forntend/instagram/src/screens/profile/EditProfileScreen.tsx:33-70 | read from the nested profile, an unedited save sends back the profile's trimmed values and its privacy setting, so already-trimmed values come back unchanged |
| EditProfileScreen.EditProfileState.constructor | forntend/instagram/src/screens/profile/EditProfileScreen.tsx:33-35 | the form is initialised once from the user cached at the first render |
| EditProfileScreen.EditProfileState.HandleSave | forntend/instagram/src/screens/profile/EditProfileScreen.tsx:63-80 | without a loaded user nothing is sent or changed; otherwise the trimmed payload is sent and the cache invalidated; success alerts and navigates back, failure alerts `data.error` or the default and stays |
| EditProfileScreen.SaveFailureHasMessage | forntend/instagram/src/screens/profile/EditProfileScreen.tsx:77-79 | a failed save always shows a non-empty message: `data.error` when present |
| AccountPrivacyScreen.IsPrivate | forntend/instagram/src/screens/settings/AccountPrivacyScreen.tsx:11 | private exactly when the loaded user's profile says `is_private` is true; false when nothing is loaded |
| AccountPrivacyScreen.StatusLabel | forntend/instagram/src/screens/settings/AccountPrivacyScreen.tsx:43 | 'Private' exactly for a private account, else 'Public' |
| AccountPrivacyScreen.ToggledMessage | forntend/instagram/src/screens/settings/AccountPrivacyScreen.tsx:16 | "now Private" exactly when the account was public, "now Public" exactly when it was private |
| AccountPrivacyScreen.AccountPrivacyState.constructor | forntend/instagram/src/screens/settings/AccountPrivacyScreen.tsx:9-11 | not updating, no alerts |
| AccountPrivacyScreen.AccountPrivacyState.OnToggle | forntend/instagram/src/screens/settings/AccountPrivacyScreen.tsx:13-20 | only while not updating; requests the opposite setting, invalidates the privacy tags, and alerts the new state on success or the fixed error on failure |
| AccountPrivacyScreen.ToggleAnnouncesRequested | forntend/instagram/src/screens/settings/AccountPrivacyScreen.tsx:16 | the success message names the requested setting with the screen's own label, and the cached user is stale afterwards |
| UserSearchScreen.Skip | forntend/instagram/src/screens/user/UserSearchScreen.tsx:26 | no request exactly when the raw query has fewer than 2 UTF-16 units, whitespace included |
| UserSearchScreen.Utf16LengthConcat | forntend/instagram/src/screens/user/UserSearchScreen.tsx:26 | UTF-16 length adds up over concatenation |
| UserSearchScreen.SkipOnlyShrinks | forntend/instagram/src/screens/user/UserSearchScreen.tsx:26 | once a query is sent, every extension of it is sent too |
| UserSearchScreen.Users | forntend/instagram/src/screens/user/UserSearchScreen.tsx:28 | the array itself, else `results`, else the empty list |
| UserSearchScreen.KeyOf | forntend/instagram/src/screens/user/UserSearchScreen.tsx:85 | the id in decimal, never empty, when present; the username otherwise |
| UserSearchScreen.KeysDistinct | forntend/instagram/src/screens/user/UserSearchScreen.tsx:85 | items with distinct ids get distinct keys |
| UserSearchScreen.EmptyMessage | forntend/instagram/src/screens/user/UserSearchScreen.tsx:88-109 | the "at least 2 characters" hint exactly when the query is skipped, "No users found." exactly otherwise |
| UserProfileScreen.UserIdOf | forntend/instagram/src/screens/profile/UserProfileScreen.tsx:282 | `profile.user.id` when truthy, else `profile.id` |
| UserProfileScreen.Derive | forntend/instagram/src/screens/profile/UserProfileScreen.tsx:292-297 | following exactly when `is_following`; pending exactly when not following and `request_sent`; not-following otherwise |
| UserProfileScreen.AfterFollow | forntend/instagram/src/screens/profile/UserProfileScreen.tsx:315 | a successful follow gives pending exactly for a private target, and never not-following |
| UserProfileScreen.DisplayCount | forntend/instagram/src/screens/profile/UserProfileScreen.tsx:308-309 | the server's count whenever present, zero included; the list length otherwise |
| UserProfileScreen.FollowButton | forntend/instagram/src/screens/profile/UserProfileScreen.tsx:331-355 | unfollow exactly for following, follow exactly for not-following, no action exactly for pending; a pressable button is disabled exactly while loading and then reads 'Loading...'; otherwise 'Following', or 'Request'/'Follow' by privacy, or 'Requested' |
| UserProfileScreen.UserProfileState.constructor | forntend/instagram/src/screens/profile/UserProfileScreen.tsx:290 | starts not-following with no alerts |
| UserProfileScreen.UserProfileState.OnProfile | forntend/instagram/src/screens/profile/UserProfileScreen.tsx:292-297 | a loaded profile sets the derived state; no profile changes nothing |
| UserProfileScreen.UserProfileState.HandleFollow | forntend/instagram/src/screens/profile/UserProfileScreen.tsx:311-319 | without a truthy user id nothing is sent or changed; otherwise the follow is sent, success moves to `AfterFollow`, failure keeps the state and alerts `data.error` or 'Failed to follow' |
| UserProfileScreen.UserProfileState.HandleUnfollow | forntend/instagram/src/screens/profile/UserProfileScreen.tsx:321-329 | without a truthy user id nothing is sent or changed; otherwise success moves to not-following, failure keeps the state and alerts `data.error` or 'Failed to unfollow' |
| UserProfileScreen.FollowThenUnfollow | forntend/instagram/src/screens/profile/UserProfileScreen.tsx:311-355 | a successful follow of a public user leaves an unfollow button and of a private user a button with no action; not-following always offers follow |
| UserProfileScreen.ProfileWithRelationshipCanFollow | forntend/instagram/src/screens/profile/UserProfileScreen.tsx:282-355 | with the user id and both relationship flags present, the follow call goes to that id, and the button offers follow exactly when neither flag is set and unfollow exactly when following |
| UserProfileScreen.SerializedProfileCannotFollow | forntend/instagram/src/screens/profile/UserProfileScreen.tsx:282-297 | a profile carrying no ids and no relationship flags always shows not-following, and pressing follow sends nothing |
| ProfileScreen.ParseUserId | forntend/instagram/src/screens/profile/ProfileScreen.tsx:19-20 | a number is kept, another truthy value converted with `Number`, a falsy one dropped |
| ProfileScreen.IsSelf | forntend/instagram/src/screens/profile/ProfileScreen.tsx:21 | the own profile exactly when the parsed id is missing or falsy |
| ProfileScreen.SelfExactlyWhenFalsy | forntend/instagram/src/screens/profile/ProfileScreen.tsx:20-21 | the own profile exactly for a missing id, NaN or zero |
| ProfileScreen.InvalidParamBranchUnreachable | forntend/instagram/src/screens/profile/ProfileScreen.tsx:35 | whenever the screen is not the own profile, the parsed id is a number other than NaN, so the invalid-parameter branch never runs |
| ProfileScreen.FollowButton | forntend/instagram/src/screens/profile/ProfileScreen.tsx:53-99 | 'Edit Profile' for self and 'Requested' for pending, neither with an action; 'Unfollow' exactly for following, disabled while unfollowing; for not-following, 'Request' and a friend request exactly for a private user, otherwise 'Follow', disabled while either call runs |
| ProfileScreen.ProfileScreenState.constructor | forntend/instagram/src/screens/profile/ProfileScreen.tsx:28 | self for the own profile, else not-following |
| ProfileScreen.ProfileScreenState.OnUserChanged | forntend/instagram/src/screens/profile/ProfileScreen.tsx:30-33 | the effect only ever resets the state to self, and only on the own profile |
| ProfileScreen.ProfileScreenState.OnUnfollowPress | forntend/instagram/src/screens/profile/ProfileScreen.tsx:64-67 | sends an unfollow and becomes not-following whatever the outcome |
| ProfileScreen.ProfileScreenState.OnFollowPress | forntend/instagram/src/screens/profile/ProfileScreen.tsx:83-91 | a private user gets a friend request and the state pending, a public one a follow and the state following, whatever the outcome |
| ProfileScreen.PressMatchesButton | forntend/instagram/src/screens/profile/ProfileScreen.tsx:53-99 | the state a press leaves behind never offers the same press again, and unfollowing brings back a follow or request button |
| CrossChecks.Header | backend/api/auth.py:38 | the header the server reads is present exactly when the client set it |
| CrossChecks.PendingShownWithoutRequest | forntend/instagram/src/screens/profile/UserProfileScreen.tsx:313-315 | when a private user has already asked to follow the caller, the caller's follow answers 200 without creating a request, yet the screen shows the caller's request as pending |
| CrossChecks.SentQueriesTheServerRefuses | forntend/instagram/src/screens/user/UserSearchScreen.tsx:26 | " a", and a single character outside the Basic Multilingual Plane, are both sent and both answered with nothing |
| CrossChecks.ServerSearchesOnlySentQueries | backend/api/views.py:620-622 | every query the server searches was also sent by the client |
| CrossChecks.ClientSignupPassesRequiredFields | forntend/instagram/src/screens/auth/SignupScreen.tsx:23-38 | a form the client accepts always passes the server's required-field check |
| CrossChecks.SessionHeaderFollowsStorage | forntend/instagram/src/store/api/services.ts:17-25 | after a login the next request carries the session id and authenticates exactly when the session resolves; after a logout it carries none and is anonymous |

## Left out

- Media: the upload and delete paths of posts, messages and stories, which do object-storage I/O, UUID naming and mimetype guessing. The direct-message endpoints, the feed, `user_posts`, `list_active`, `list_likes`, the story `views` list, `cleanup` and `delete_story` are not part of this model either.
- The Celery and cron tasks, the settings, the serializers, the routing and the admin. Two serializer facts are used as inputs: the shape of `getMe`'s user object, and which fields a profile answer carries.
- Django itself:
  - creating a user, password hashing and `authenticate`. The credential check is an input;
  - `login` and the new session id, which is an input to `useAuth`;
  - session decoding and pagination.
- `SessionAuth.Resolve`: a session whose `_auth_user_id` is not a number makes Django raise instead of returning None. The model treats the stored id as a user id or nothing.
- `Text.ContainsIgnoreCase`: folds ASCII letters only, not Unicode case.
- The RTK Query engine: fetching, refetch scheduling and `keepUnusedDataFor`.
  - A mutation's tags are invalidated once it completes, whatever its outcome.
  - `resetApiState` is an empty cache.
  - Which entries the screens read from the cache is not modelled.
- Storage failures: `AsyncStorage` calls are taken to succeed. `console.log` output is not modelled.
- Two `catch` branches are left out because `handleLogin` and `handleSignup` never throw, so those branches never run. One is `LoginScreen`'s, which would show `e.message` or 'Login failed'. The other is `SignupScreen`'s, which would alert.
- Rendering: loading spinners, error texts, images and themes. Also `UserProfileScreen`'s choice of which name, bio and picture to show.
- The text-input and switch setters of `EditProfileScreen` and `LoginScreen`: each is a plain assignment of the typed value.
- `EditProfileScreen.EditProfileState.constructor`: uses the corrected reading described under Findings. The initial form as written is `EditProfileScreen.WrittenInitialForm`.
- Concurrency: double taps and overlapping calls. The `disabled` flags appear only as preconditions, such as `!updating` and `!loading`, and as the `disabled` field of the modelled buttons.
- JavaScript's `Number` conversion of a string parameter: its result is an input, and it may be NaN.
- The generic create, update, partial-update and delete routes of `FriendRequestViewSet` (backend/api/views.py:221): they let either party write a request's `status`, which the serializer leaves writable. Setting a rejected request back to pending can leave two users with pending requests to each other, outside the invariant `FollowProps` proves for the modelled actions.
- `ApiServices.Prepared`, `ApiServices.Headers.Prepare` and `CrossChecks.Header` compare header names exactly, while the fetch `Headers` object and Django's `request.headers` ignore case; both sides spell the name the same way.
- `EditProfileScreen.EditProfileState.HandleSave` and `AccountPrivacyScreen.AccountPrivacyState.OnToggle`: their `Fulfilled` branches describe the client code only. `updateProfile` sends PATCH to `profiles/` and `updatePrivacy` to `profiles/privacy/` (forntend/instagram/src/store/api/services.ts:71-78, 181-188). Both routes belong to `ProfileViewSet` (backend/api/urls.py:23), which is read-only (backend/api/views.py:296), so the backend refuses these calls and changes no profile. The payloads the model computes are what the client sends, not what is stored.
- Time: an integer count of seconds passed in as `now`. Time-zone handling is not modelled.

## Findings

| source | as written | input that shows it | evidently intended | confidence | as-written member | corrected member |
|---|---|---|---|---|---|---|
| forntend/instagram/src/screens/profile/EditProfileScreen.tsx:33-35 | the form reads `full_name`, `bio` and `is_private` at the top level of the `getMe` result. That result is the `user` object of `auth/me/` (backend/api/views.py:130-133), which carries them only inside `profile` | a private user with full name "Ann" and bio "hello": the form opens as '', '', off, and saving it unedited sends an empty name, an empty bio and a public setting | the form starts from the user's nested profile, so saving it unedited sends the profile back unchanged | not executed; follows from the serializer field lists | EditProfileScreen.UneditedSaveErasesProfile | EditProfileScreen.UneditedSaveKeepsProfile |
| forntend/instagram/src/screens/profile/UserProfileScreen.tsx:282-297 | the screen reads `user.id`, `id`, `is_following` and `request_sent` from the `profiles/<username>/` answer. `ProfileViewSet` serialises that answer with `UserProfileSerializer` (backend/api/views.py:296-301, backend/api/serializers.py:16-19), which carries only `full_name`, `bio`, `profile_pic` and `is_private` | any profile opened by username: the user id is undefined, so the follow and unfollow handlers return without sending, the follower lists are skipped, and the button always offers Follow ('Request' on a private profile) | the answer carries the user's id and the viewer's relationship flags, so the button follows the real relationship and the calls reach the user | not executed; follows from the serializer field list | UserProfileScreen.SerializedProfileCannotFollow | UserProfileScreen.ProfileWithRelationshipCanFollow |
