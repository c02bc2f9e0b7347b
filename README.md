# klubRanks client core in Dafny

This project models the client of klubRanks, a club habit tracker. Members
of a club check in once per cooldown to score points, and they chat, look
at stats and manage the club. The model covers these parts of the client:

- `api.ts`, the REST gateway. It covers how `apiFetch` assembles headers,
  how it turns a response into a rejection, an empty object or a JSON
  parse, and the path and body every endpoint helper builds.
- `store.tsx`, the application store. `module Store` holds the provider's
  state as a value and every store operation as a transition on it.
  `Provider.AppStore` is a class with the same fields, updated in place,
  and each of its methods is proved to follow the transition. The wire to
  domain mappers are in `StoreMappers`. The avatar colour hash is in
  `UserStyle`, as a loop proved against a fold.
- The page and component logic:
  - the chart normalisation and legend of `components/Stats.tsx`;
  - the cooldown countdown and check-in gate of `pages/ClubView.tsx`;
  - the scroll and send state machine of `components/Chat.tsx`;
  - the membership gathering of `components/UserProfileModal.tsx`;
  - the settings form of `components/Settings.tsx`;
  - the invite redirect of `pages/JoinClub.tsx`.

The network is an input. Every reply an operation awaits is a parameter, of
type `Reply<T>`: the call either fails with a `Failure` or resolves to a
`Payload<T>`. A payload is `Null` (JSON `null` or any other falsy value: `false`,
`0`, `""`), `Other` (a truthy value of a shape the caller does not expect,
such as the `{}` that `apiFetch` returns for an empty body) or
`Data(value)`. Parameters appear in the order the operation awaits
them. Each request an operation issues is appended to the state's `sent`
log, so "makes no call" reads as "`sent` is unchanged". The current time
(`Date.now()`, `new Date().toISOString()`) is also a parameter: integer
milliseconds for the countdown, an opaque string for timestamps.

## Model

| member | source | states |
|---|---|---|
| Api.Prepare | api.ts:1-24 | the URL is the base (the configured `VITE_API_BASE_URL` when non-empty, otherwise `http://192.168.1.12:8080`) followed by the path, and the method and body pass through unchanged; when the caller gives no `headers`, `Content-Type: application/json` is present and `Authorization: Bearer <token>` is present exactly when the token is non-empty; a caller-supplied `headers` replaces the merged set wholesale, bearer header included |
| Api.Classify | api.ts:26-37 | a non-2xx status rejects with `ApiError` carrying that status, and the body text as its message or `Request failed` when the body is empty; an ok 204 or content-length `"0"` yields the empty object; anything else is parsed as JSON |
| Api.ClubSubRoute | api.ts:148-242 | every club sub-path the helpers build parses back to its route with the same id |
| Api.ClubItemRoute | api.ts:133-134 | `/clubs/<id>` parses back to the club with that id |
| Api.LeaderboardRoute | api.ts:180-190 | the leaderboard path parses back to the same club id and limit |
| Api.MessagePageRoute | api.ts:216-227 | the messages page path parses back to the same club id, limit and offset |
| Api.PageQueryRoundTrip | api.ts:222-223 | the `limit=<L>&offset=<O>` query parses back to L and O |
| Api.LoginRequest | api.ts:52-63 | POST `/login` with no token and body `{username, password}` |
| Api.SignupRequest | api.ts:65-74 | POST `/signup` with no token and the body exactly `{username, password, avatar_id}` in that order, `avatar_id` defaulting to `default` |
| Api.UpdateAvatarRequest | api.ts:76-85 | PUT `/users/avatar` with the token and body `{avatar_id}` |
| Api.MyClubsRequest | api.ts:102-106 | GET `/clubs` with the token and no body |
| Api.CreateClubRequest | api.ts:108-126 | POST `/clubs` with exactly the keys `name`, `description`, `is_private`, `action`, in that order; each given value is sent as given; `description` defaults to null, `is_private` to false and `action` to `units` |
| Api.UpdateClubRequest | api.ts:128-146 | PUT `/clubs/<id>` with exactly the keys `name`, `description`, `is_private`, then `action` only when given; each given value is sent as given; `description` defaults to null and `is_private` to false; `action` gets no default and is left out of the JSON when absent |
| Api.AddMemberRequest | api.ts:148-154 | POST `/clubs/join/<code>` with no body |
| Api.LeaveClubRequest | api.ts:156-162 | DELETE `/clubs/<id>/members` |
| Api.LeaderboardRequest | api.ts:180-190 | GET with the token and no body |
| Api.LeaderboardRequestPath | api.ts:180-190 | the leaderboard request's path `/clubs/<id>/leaderboard?limit=<L>` names that club and limit |
| Api.ScoreRequest | api.ts:192-201 | POST `/clubs/<id>/leaderboard/score` |
| Api.StatsRequest | api.ts:203-205 | GET `/clubs/<id>/stats/me` |
| Api.MessagesRequest | api.ts:216-227 | GET with the token and no body |
| Api.MessagesRequestPath | api.ts:216-227 | the messages request's path `/clubs/<id>/messages?limit=<L>&offset=<O>` names that club, limit and offset |
| Api.SendMessageRequest | api.ts:229-242 | POST `/clubs/<id>/messages` whose body is exactly `{message: text}`, with no reply target |
| Api.MessagesRequestDefaults | api.ts:180-227 | the messages request defaults to limit 50 and offset 0, and the leaderboard limit defaults to 50 |
| Api.MessagesRequestInjective | api.ts:216-227 | different limits or offsets give different message requests |
| Text.NatToStringRoundTrip | store.tsx:112 | decimal rendering of a natural number parses back to it |
| Text.IntToStringRoundTrip | store.tsx:112 | `toString()` of an integer, sign included, parses back to it |
| Text.NatToStringInjective | store.tsx:343 | different naturals render differently |
| Text.IntToStringInjective | store.tsx:247 | different integers render differently, so server ids stay distinct as strings |
| Text.Take | store.tsx:50 | `slice(0, n)` is a prefix of length min(n, length) |
| Text.TrimEmptyIffBlank | components/Chat.tsx:68 | `trim()` is empty exactly when every character is JavaScript whitespace |
| StoreMappers.ToClub | store.tsx:111-125 | the id and creator parse back to the wire numbers; unchanged fields are copied; a missing or empty description becomes `''`; an empty action becomes `Points`; the activity text is `Active recently` |
| StoreMappers.MapClubs | store.tsx:111 | one club per wire club, in order |
| StoreMappers.ToMember | store.tsx:232-242 | the user id parses back; an empty username becomes `Unknown`; the initials are `??` for an empty name, otherwise the upper-cased first at most two characters; the last update defaults to now |
| StoreMappers.MapMembers | store.tsx:232 | one member per leaderboard entry, in order |
| StoreMappers.MessageWithId | store.tsx:246-253 | text, user and timestamp are copied; an empty type becomes `user` |
| StoreMappers.LiveId | store.tsx:247 | a live message's id parses back to the server id |
| StoreMappers.MapLive | store.tsx:246-254 | the newest-first page is stored oldest-first, each message keeping its server id |
| StoreMappers.MapOlder | store.tsx:342-350 | an older page is reversed and each message gets id `old-<offset>-<idx>-<timestamp>`, where idx is its position in the wire page |
| StoreMappers.ReverseReverse | store.tsx:254 | reversing twice restores the page |
| StoreMappers.PrependOlder | store.tsx:352-355 | prepending a page grows the history by the page size; the old history is the suffix; the prepended texts are the page's, reversed |
| StoreMappers.OlderIdInjective | store.tsx:343 | synthetic ids with different offset, index or timestamp differ |
| StoreMappers.OlderIdNotLive | store.tsx:343 | a synthetic older id never equals a live message's numeric id |
| StoreMappers.OlderIdsDistinct | store.tsx:342-350 | the messages of one older page have pairwise distinct ids |
| StoreMappers.OlderIdsAcrossPages | store.tsx:342-350 | no id of a page fetched at one offset equals an id of a page fetched at another |
| UserStyle.Wrap32 | store.tsx:43 | the result is a 32-bit signed integer congruent to the input modulo 2^32 |
| UserStyle.ShiftLeft5 | store.tsx:43 | `hash << 5` is a 32-bit signed value congruent to 32 * hash |
| UserStyle.StyleIndex | store.tsx:46 | the colour index lies in 0..5 |
| UserStyle.InitialsOf | store.tsx:50 | `??` for an empty username, otherwise the upper-cased first at most two characters |
| UserStyle.GenerateUserStyle | store.tsx:31-52 | the loop computes the hash fold of the username, so the colour is the palette entry at `abs(hash) % 6` and always one of the six; the initials are as above |
| UserStyle.HashBound | store.tsx:42-44 | the hash grows at most linearly in the length of the name |
| UserStyle.HashTwoLetters | store.tsx:43 | for two characters the hash is `b + 31a` |
| Store.Initial | store.tsx:83-96 | on mount the token and user come from storage, and every collection and cursor is empty |
| Store.Logout | store.tsx:98-104 | one step clears the token, the user and the club list, and leaves everything else alone |
| Store.UserFrom | store.tsx:143-149 | the stored user takes the id, the name, the avatar (or the initials when the avatar is missing) and the colour from the response |
| Store.Login | store.tsx:140-160 | one login request; on a well-formed reply the token and user are set together from the same response; every failure is returned and changes nothing else |
| Store.Signup | store.tsx:162-170 | the signup request, then login with the same credentials; a signup failure stops there and is returned |
| Store.RefreshClubsWith | store.tsx:106-132 | no call without a token; a club array replaces the club list; another shape keeps it; a failure logs out exactly when its message contains `401` |
| Store.RefreshClubs | store.tsx:106-132 | refreshes with the store's own token |
| Store.CreateClub | store.tsx:172-180 | without a token, nothing; otherwise the create request, and a refresh only when it succeeded |
| Store.UpdateClub | store.tsx:182-190 | without a token, nothing; otherwise the update request with the given action, and a refresh only when it succeeded |
| Store.JoinClub | store.tsx:192-200 | without a token, nothing; otherwise the join request, and a refresh only when it succeeded |
| Store.LeaveClub | store.tsx:202-212 | without a token, nothing and no error; a failed leave request is rethrown; a successful one is followed by a refresh |
| Store.UpdateAvatar | store.tsx:214-225 | without a token or user, nothing; a successful avatar update changes only the user's avatar |
| Store.LoadClubDataWith | store.tsx:227-263 | other clubs' members, messages and cursors are untouched; arriving messages are stored oldest-first and reset the cursor to offset 0 with more to load; when only the leaderboard arrives, the members are replaced and the messages and cursor kept |
| Store.LoadClubData | store.tsx:227-263 | loads with the store's own token |
| Store.FetchClubStatsWith | store.tsx:297-316 | no call and `null` without a token; a reply is stored under the club and returned; a failure returns `null`; only that club's stats change |
| Store.FetchClubStats | store.tsx:297-316 | fetches with the store's own token |
| Store.IncrementScore | store.tsx:265-283 | false and no call without a token; false and no refresh when the score call fails; otherwise true, after loadClubData, refreshClubs and fetchClubStats for that club; the score call is always the first request |
| Store.SendMessage | store.tsx:286-294 | without a token or user, nothing; the send request carries only the text, and a successful send reloads the club |
| Store.LoadMoreMessages | store.tsx:318-361 | an exhausted cursor makes no request and changes nothing; otherwise it requests limit 50 at offset+50; an empty page exhausts the cursor and keeps offset and history; a non-empty page advances the offset by 50 and prepends the mapped page; a non-array body advances the offset but keeps the messages |
| Store.PageRequests | store.tsx:328-333 | the k-th request of a run asks for offset + 50(k+1) |
| Store.FullPageStep | store.tsx:328-355 | one non-empty page: the cursor stays live, the offset grows by 50, one request at offset+50 goes out, and the mapped page is prepended |
| Store.FullPagesAdvanceCursor | store.tsx:318-361 | after n non-empty pages the offset has grown by 50n and the cursor is still live; token and members are untouched |
| Store.FullPagesRequestInOrder | store.tsx:328-340 | those n pages were requested at offsets offset+50, offset+100, and so on, one request each and nothing else |
| Store.FullPagesOnlyPrepend | store.tsx:342-355 | the old history is a suffix of the new one, which is longer by the pages' sizes |
| Store.ExhaustedStaysPut | store.tsx:322-325 | once exhausted, any number of further calls changes nothing and sends nothing |
| Store.EmptyPageEndsPaging | store.tsx:335-338 | an empty page keeps offset and history, and makes every later call a no-op |
| Store.ReloadRestartsPaging | store.tsx:256-333 | after a reload the next older page is requested at offset 50 again |
| Store.LogoutDecidedByBody | store.tsx:128-131 | whether a failed refresh logs out depends only on the response body text, not the status |
| Store.EmptyUnauthorizedKeepsSession | store.tsx:128-131 | a 401 with an empty body does not log out |
| Store.BodyWith401LogsOut | store.tsx:128-131 | an error body that starts with `401` logs out, whatever the status |
| Store.Step | store.tsx:98-361 | no operation breaks "token and user are both present or both absent", and the request log only grows |
| Store.RunKeepsSession | store.tsx:98-361 | the same holds over any sequence of operations |
| Store.SignedOutSendsOnlyCredentials | store.tsx:98-361 | without a token, only login and signup send requests |
| Provider.AppStore.constructor | store.tsx:83-96 | the fields start as the initial state |
| Provider.AppStore.Call | api.ts:12-24 | a request is appended to the log |
| Provider.AppStore.Logout | store.tsx:98-104 | the fields become the logout transition of the old fields |
| Provider.AppStore.Login | store.tsx:140-160 | the fields and the returned error are the login transition; the user style comes from the hash loop |
| Provider.AppStore.Signup | store.tsx:162-170 | the fields and the returned error are the signup transition |
| Provider.AppStore.RefreshClubsWith | store.tsx:106-132 | the fields follow the refresh transition for the given token |
| Provider.AppStore.RefreshClubs | store.tsx:106-132 | the fields follow the refresh transition |
| Provider.AppStore.CreateClub | store.tsx:172-180 | the fields follow the create transition |
| Provider.AppStore.UpdateClub | store.tsx:182-190 | the fields follow the update transition |
| Provider.AppStore.JoinClub | store.tsx:192-200 | the fields follow the join transition |
| Provider.AppStore.LeaveClub | store.tsx:202-212 | the fields and the rethrown error follow the leave transition |
| Provider.AppStore.UpdateAvatar | store.tsx:214-225 | the fields follow the avatar transition |
| Provider.AppStore.LoadClubDataWith | store.tsx:227-263 | the member and message maps and the cursor dictionaries are updated in place as the load transition says |
| Provider.AppStore.LoadClubData | store.tsx:227-263 | the same, with the store's own token |
| Provider.AppStore.FetchClubStatsWith | store.tsx:297-316 | the stats map and the returned value follow the stats transition |
| Provider.AppStore.FetchClubStats | store.tsx:297-316 | the same, with the store's own token |
| Provider.AppStore.IncrementScore | store.tsx:265-283 | the three refreshes run one after another with the captured token; fields and result follow the increment transition |
| Provider.AppStore.SendMessage | store.tsx:286-294 | the fields follow the send transition |
| Provider.AppStore.LoadMoreMessages | store.tsx:318-361 | the cursor dictionaries and messages are updated in place as the load-older transition says |
| StatsChart.FirstSeenSnoc | components/Stats.tsx:67-72 | adding a name to the set appends it only when it is new |
| StatsChart.FirstSeenSameElements | components/Stats.tsx:67-72 | the player list holds exactly the names that occur |
| StatsChart.FirstSeenNoDup | components/Stats.tsx:67-72 | the player list has no duplicates |
| StatsChart.FirstSeenOrder | components/Stats.tsx:67-72 | players are listed in the order of their first appearance |
| StatsChart.CollectPlayers | components/Stats.tsx:67-72 | the nested loops over points and keys build the first-seen list of all keys |
| StatsChart.NormaliseRow | components/Stats.tsx:76-87 | the row is keyed by `day` and the players; each player holds its numeric score, or 0 when missing or not a number |
| StatsChart.NormaliseRows | components/Stats.tsx:75-88 | one normalised row per graph point, in order |
| StatsChart.AssignColors | components/Stats.tsx:91-101 | every player gets a colour; `You` gets `#22c55e`; the k-th other player gets entry k mod 4 of the four others |
| StatsChart.ChartModel | components/Stats.tsx:56-124 | with no graph data, all three outputs are empty; otherwise the players are the first-seen keys with no duplicates, there is one row per point, the colours are as above, and `hasSinglePoint` holds exactly when there is one row and some player |
| StatsChart.ForEveryPlayerCount | components/Stats.tsx:121-124 | when every row holds a number for every player, the number of rows with a number is the row count (0 with no players) |
| StatsChart.ForEveryPlayerSinglePoint | components/Stats.tsx:121-124 | on such rows `hasSinglePoint` holds exactly when there is one row and some player |
| StatsChart.ToggleFocuses | components/Stats.tsx:136-137 | after selecting a player it is the only undimmed one; clicking again undims all |
| StatsChart.StatsView.constructor | components/Stats.tsx:24-28 | no stats, loading, no selection |
| StatsChart.StatsView.FetchStats | components/Stats.tsx:30-118 | without a stored token, no request and no change; otherwise the stats request is sent, a reply replaces the stats, a failure keeps them, and loading ends either way; a reply re-runs the default selection on the players derived from it, so a legend choice is replaced by `You` whenever the new graph lists `You`, and a failure keeps the selection |
| StatsChart.StatsView.OnPlayersChanged | components/Stats.tsx:111-118 | `You` is selected when the new players include it; otherwise the selection is kept |
| StatsChart.StatsView.ClickLegend | components/Stats.tsx:241-244 | clicking the active player clears the selection, and clicking any other player selects it |
| ClubView.TotalSeconds | pages/ClubView.tsx:25 | the ceiling of ms / 1000 |
| ClubView.Pad2 | pages/ClubView.tsx:28 | seconds render as exactly two digits |
| ClubView.Pad2Value | pages/ClubView.tsx:28 | the padded seconds parse back to their value |
| ClubView.FormatTimeRoundTrip | pages/ClubView.tsx:24-29 | `m:ss` parses back to m = t div 60 and s = t mod 60, with s < 60 and 60m + s = t |
| ClubView.CanIncrementWhenDue | pages/ClubView.tsx:156 | the gate is open exactly when now ≥ next check-in, which given the clamp is remaining = 0 |
| ClubView.FindMember | pages/ClubView.tsx:121-123 | the first member with the user id, or none when no member has it |
| ClubView.MyScore | pages/ClubView.tsx:121-124 | the score of the first member matching the current user, or 0 when there is no user or no match |
| ClubView.ClubMembers | pages/ClubView.tsx:110 | the members list the store holds for a non-empty route id, or the empty list |
| ClubView.LoadShowsMembers | pages/ClubView.tsx:110-124 | after a load of the route club whose leaderboard arrived, the page lists exactly the members that load mapped and shows the current user's score among them |
| ClubView.OtherLoadKeepsMembers | pages/ClubView.tsx:110-124 | a load of another club leaves the page's members and score unchanged |
| ClubView.ClubPage.constructor | pages/ClubView.tsx:102-107 | no countdown and no animation |
| ClubView.ClubPage.Tick | pages/ClubView.tsx:145-154 | a countdown tick sets the remaining time from the club's next check-in; with none it changes nothing |
| ClubView.ClubPage.HandleIncrement | pages/ClubView.tsx:158-164 | without an id or with the gate closed, nothing changes; otherwise the animation starts and the store performs incrementScore |
| ClubView.ClubPage.AnimationsEnd | pages/ClubView.tsx:166-167 | both animation flags end |
| ClubView.Poll | pages/ClubView.tsx:114-119 | a poll reloads the club's data when there is an id, and does nothing otherwise |
| ChatView.Chat.constructor | components/Chat.tsx:14-21 | the club prop is the given one, nothing committed yet, first load armed, stuck to the bottom, empty input |
| ChatView.Chat.SetText | components/Chat.tsx:17 | the input changes and nothing else |
| ChatView.Chat.HandleScroll | components/Chat.tsx:23-30 | the store loads older messages of the current `clubId` prop (the latest committed one) exactly when the container exists and its scrollTop is below 40, so 40 itself does not load; otherwise the store is unchanged |
| ChatView.Chat.Commit | components/Chat.tsx:34-61 | the club prop becomes the new one and the input is kept; on the first commit or a messages change, stick-to-bottom becomes "less than 40 below the viewport", a jump always happens while first load is armed (which then disarms) and otherwise exactly when stuck; no jump without a messages change after the first commit; the first commit or a change of club re-arms first load |
| ChatView.Chat.HandleSend | components/Chat.tsx:66-72 | blank text sends nothing and changes nothing; otherwise the untrimmed text is sent to the current club, the input is cleared, and the view sticks to the bottom |
| ChatView.SwitchedChatSendsToNewClub | pages/ClubView.tsx:299-301 | for any two clubs and any non-blank text, a chat opened on the first club whose page moves to the second sends that text to the second |
| Profile.EntryFor | components/UserProfileModal.tsx:37-48 | a club's entry is its first membership with the user id, present only when the club has a member list and the user is in it |
| Profile.UserClubsAppend | components/UserProfileModal.tsx:36-50 | gathering over concatenated club lists concatenates the results |
| Profile.UserClubsSingle | components/UserProfileModal.tsx:36-50 | a single club contributes its entry or nothing |
| Profile.UserClubsSound | components/UserProfileModal.tsx:36-50 | every gathered entry is one of the clubs, paired with a membership of the user |
| Profile.IdentityFirstKnown | components/UserProfileModal.tsx:43-47 | name and avatar come from the first membership whose name is not literally `Unknown`, so later ones replace an earlier one only when its name was `Unknown` |
| Profile.IdentityAllUnknown | components/UserProfileModal.tsx:32-47 | with no known name, the name stays `Unknown` and the avatar is the last membership's, or none when there are none |
| Profile.Displayed | components/UserProfileModal.tsx:19-56 | the current user's own name and avatar override the memberships; with no membership and not the current user, `Unknown` and no avatar |
| Profile.GatherProfile | components/UserProfileModal.tsx:32-56 | the loop builds the gathered list in club order and the displayed name and avatar |
| Profile.ActiveMembership | components/UserProfileModal.tsx:59-61 | with an active club, the membership of the first gathered entry for it, or none; without one, none |
| Profile.LongestShown | components/UserProfileModal.tsx:150 | the longest streak, or the current streak when that is 0 |
| SettingsPanel.FindClub | components/Settings.tsx:20 | the first club with the id, or none when no club has it |
| SettingsPanel.InviteCodeShown | components/Settings.tsx:20-21 | the invite code is the code of the first listed club with the id when that code is non-empty, and the club id when it is empty or no club has the id |
| SettingsPanel.CreatorMayEdit | components/Settings.tsx:20-28 | editing is offered exactly when a user is signed in and created the first listed club with the id, and never for an id no listed club has |
| SettingsPanel.Settings.constructor | components/Settings.tsx:18-26 | not editing; the form holds the club's values, or `''` |
| SettingsPanel.Settings.ToggleEdit | components/Settings.tsx:49-57 | opening resets the form to the club's values (or `''`); closing keeps the form; editing flips |
| SettingsPanel.Settings.SetFields | components/Settings.tsx:24-26 | the form takes the typed values; editing and the club prop stay |
| SettingsPanel.Settings.SwitchClub | pages/ClubView.tsx:302-304 | a new `clubId` prop replaces the old one, and the form and the editing flag stay as they were |
| SettingsPanel.Settings.HandleUpdate | components/Settings.tsx:43-47 | the store performs updateClub for the current club prop with the current form values, then editing ends |
| SettingsPanel.Settings.HandleLeaveClub | components/Settings.tsx:36-41 | without confirmation, nothing; otherwise the store performs leaveClub, and navigation to `/dashboard` happens exactly when that did not throw |
| SettingsPanel.LeaveNavigatesUnlessFailed | components/Settings.tsx:36-41 | leaving navigates unless the leave request was sent and failed |
| InviteRedirect.JoinRedirect | pages/JoinClub.tsx:10-26 | with a code, `pendingClubJoin` is set to it and the target is `/dashboard` for a signed-in user, else `/?invite=true`; with no code, nothing is written and the target is `/dashboard` |

## Left out

- The transport is not modelled: `fetch`, reading `res.text()`, and `res.json()` parsing (JSON syntax errors are one kind of `ClientError`). `res.ok` is derived from the status.
- Every falsy JSON body (`null`, `false`, `0`, `""`) is `Null`. Each caller reads a body through `||`, `!`, `Array.isArray` or a property access, which treat the four alike: `(leaderboard || [])` and `(backendMessages || [])` map them to empty lists, `!older` ends paging, and login fails with a `TypeError`. `fetchClubStats` stores and returns the falsy value itself, which the model records as `Null`; nothing in the client tells the two apart.
- A truthy body of an unexpected shape is `Other` as a whole. A record with some fields missing, which JavaScript would map partly, is not modelled.
- The text of engine errors is not modelled. A `TypeError`, as when login reads `res.user` of `{}`, carries the fixed message `TypeError`.
- Storage is not modelled: localStorage for token, user and theme, sessionStorage in the invite page, JSON (de)serialisation of the stored user, and the theme toggle with `matchMedia` and DOM classes. All of these are I/O or cosmetic. The stored token and user are constructor parameters. The invite page returns the value it would write.
- The effect that calls `refreshClubs` when the token changes (store.tsx:134-138) is a React scheduling concern. Callers run `RefreshClubs` explicitly.
- Timers are discrete events: the 3 s poll (`ClubView.Poll`), the 5 s stats poll (`StatsView.FetchStats`), the 1 s countdown (`ClubPage.Tick`) and the `setTimeout` animation resets (`ClubPage.AnimationsEnd`). The 2 s "copied" reset and the clipboard write of the settings panel are left out as I/O.
- `Store.IncrementScore`: the three refreshes inside `Promise.all` run one after another in the order written. Under real interleaving the order of entries in `sent`, and which state write lands last, can differ.
- `ChatView.Chat.HandleSend`: `sendMessage` is not awaited in the source. The model applies the whole send transition before clearing the input.
- The animated score display (`performance.now`, `requestAnimationFrame`, float interpolation) is left out because it is timing and floating point.
- `ClubView.ClubPage.Tick`: `nextCheckIn` is taken as the number of milliseconds the server sends. If the server sent an ISO date string instead, the epoch instant would be a truthy string and would set the countdown to 0, where the model treats `Some(0)` as absent.
- Date formatting with date-fns and ISO-date parsing are left out. Timestamps are opaque strings, and `nextCheckIn` and now are integer milliseconds.
- JSX rendering, styling, recharts, `alert`, `console` and `confirm` are left out. The confirm answer is a parameter, and router navigation is the returned route string.
- The profile modal's logout and avatar-picker handlers (components/UserProfileModal.tsx:21-29) only call the store operations modelled above.
- `UserStyle.GenerateUserStyle`: `charCodeAt` is modelled as the character's code point. That matches for characters in the Basic Multilingual Plane, and the model does not split surrogate pairs.
- `UserStyle.GenerateUserStyle`: `- hash` and `+ charCodeAt` are exact integer arithmetic, as JavaScript doubles compute them. `UserStyle.HashBound` shows the hash stays below 2^53 for names under about two million characters. Longer names are not modelled.
- `Text.ToUpper`: upper-casing is ASCII only.
- `Text.IntToStringRoundTrip`: numbers are integers. Non-integer or non-finite values are not modelled. The same holds for scores, streaks and ranks.
- `Object.keys` order for integer-like keys is not modelled. A point's `scores` are taken in the order of their entries. Duplicate keys within one `scores` object are not modelled either.
- A caller passing an explicit `headers: undefined` is treated as passing no `headers`.
- `StatsChart.ChartModel`: `colorMap` is always taken as a function of players with no duplicates, which `CollectPlayers` guarantees. `AssignColors` alone states round-robin only for such lists.
- The route parser (`Api.ParsePath`) exists only to state the paths; its lemmas cover club ids that are non-empty, hold no `/` and are not `join`.
