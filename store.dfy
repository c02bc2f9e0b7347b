/**
 * The state of `AppProvider` (store.tsx) as a value, and every store
 * operation as a transition on it. The network replies an operation
 * awaits are its inputs, in the order it awaits them; the requests it
 * issues are appended to `sent`, so "makes no call" is "leaves `sent`
 * alone".
 *
 * The class `Provider.AppStore` performs the same operations by updating
 * fields in place and is proved to follow these transitions.
 */
module Store {
  import opened Wrappers
  import opened Text
  import opened Types
  import opened Api
  import opened StoreMappers
  import opened UserStyle

  /** A reply whose body the caller does not read. */
  type Ack = Reply<()>

  /** The two replies `loadClubData` awaits: the leaderboard, then the newest messages. */
  datatype ClubReplies = ClubReplies(leaderboard: Reply<seq<WireEntry>>, messages: Reply<seq<WireMessage>>)

  /** The message `TypeError` carries when a caller reads a property of a body of the wrong shape. */
  const TypeErrorMessage := "TypeError"

  /**
   * The provider's state. `offsets` and `hasMore` are the per-club
   * pagination cursor (`messageOffsets`, `messageHasMore`); a club without
   * an entry is at offset 0 with more to load.
   */
  datatype State = State(
    token: Option<string>,
    currentUser: Option<User>,
    clubs: seq<Club>,
    members: map<string, seq<Member>>,
    messages: map<string, seq<Message>>,
    clubStats: map<string, Payload<UserStats>>,
    offsets: map<string, nat>,
    hasMore: map<string, bool>,
    sent: seq<Request>)

  /** The state on mount, from the token and user kept in storage. */
  function Initial(savedToken: Option<string>, savedUser: Option<User>): (s: State)
    ensures s.token == savedToken && s.currentUser == savedUser
    ensures s.clubs == [] && s.members == map[] && s.messages == map[] && s.clubStats == map[]
    ensures s.offsets == map[] && s.hasMore == map[] && s.sent == []
  {
    State(savedToken, savedUser, [], map[], map[], map[], map[], map[], [])
  }

  /** `if (!token)` fails exactly for a missing or empty token. */
  predicate Authed(s: State) {
    Truthy(s.token)
  }

  /** A signed-in session has both a token and a user, a signed-out one neither. */
  predicate SessionOk(s: State) {
    s.token.Some? <==> s.currentUser.Some?
  }

  /** `messageOffsets.current[clubId] ?? 0`. */
  function Offset(s: State, clubId: string): nat {
    if clubId in s.offsets then s.offsets[clubId] else 0
  }

  /** `messageHasMore.current[clubId] ?? true`. */
  function HasMore(s: State, clubId: string): bool {
    if clubId in s.hasMore then s.hasMore[clubId] else true
  }

  /** `prev[clubId] || []`. */
  function History(s: State, clubId: string): seq<Message> {
    if clubId in s.messages then s.messages[clubId] else []
  }

  function Send(s: State, r: Request): State {
    s.(sent := s.sent + [r])
  }

  /** Changes nothing but the request log, and only by appending. */
  predicate OnlySent(s: State, t: State) {
    t == s.(sent := t.sent) && s.sent <= t.sent
  }

  // ---- Session ----

  function Logout(s: State): (r: State)
    ensures r.token.None? && r.currentUser.None? && r.clubs == []
    ensures r == s.(token := None, currentUser := None, clubs := [])
    ensures SessionOk(r) && r.sent == s.sent
  {
    s.(token := None, currentUser := None, clubs := [])
  }

  /** The user `login` stores for a login response. */
  function UserFrom(res: LoginResponse): (u: User)
    ensures ParseInt(u.id) == Some(res.user.id) && u.username == res.user.username
    ensures u.avatarId == OrElse(res.user.avatarId, InitialsOf(res.user.username))
    ensures u.color == Colors[StyleIndex(res.user.username)]
  {
    IntToStringRoundTrip(res.user.id);
    User(IntToString(res.user.id), res.user.username,
      OrElse(res.user.avatarId, InitialsOf(res.user.username)), Colors[StyleIndex(res.user.username)])
  }

  /**
   * `login`: on success the token and the user come from the same
   * response and are set together; any failure is rethrown and changes
   * nothing but the request log.
   */
  function Login(s: State, username: string, password: string, reply: Reply<LoginResponse>): (r: (State, Option<Failure>))
    ensures r.0.sent == s.sent + [LoginRequest(username, password)]
    ensures reply.Got? && reply.payload.Data? ==>
      r.1.None? && r.0 == s.(token := Some(reply.payload.value.token),
                            currentUser := Some(UserFrom(reply.payload.value)),
                            sent := r.0.sent)
    ensures !(reply.Got? && reply.payload.Data?) ==> r.1.Some? && OnlySent(s, r.0)
    ensures reply.Failed? ==> r.1 == Some(reply.failure)
    ensures SessionOk(s) ==> SessionOk(r.0)
  {
    var s1 := Send(s, LoginRequest(username, password));
    match reply
    case Failed(f) => (s1, Some(f))
    case Got(Data(res)) => (s1.(token := Some(res.token), currentUser := Some(UserFrom(res))), None)
    case Got(_) => (s1, Some(ClientError(TypeErrorMessage)))
  }

  /** `signup`: the signup call, then `login` with the same credentials; a failure of either is rethrown. */
  function Signup(s: State, username: string, password: string, ack: Ack, reply: Reply<LoginResponse>): (r: (State, Option<Failure>))
    ensures ack.Failed? ==> r == (Send(s, SignupRequest(username, password)), Some(ack.failure))
    ensures ack.Got? ==> r == Login(Send(s, SignupRequest(username, password)), username, password, reply)
    ensures SessionOk(s) ==> SessionOk(r.0)
    ensures s.sent < r.0.sent
  {
    var s1 := Send(s, SignupRequest(username, password));
    if ack.Failed? then (s1, Some(ack.failure)) else Login(s1, username, password, reply)
  }

  // ---- Clubs ----

  /**
   * `refreshClubs` run with the token its closure captured: an array
   * replaces the club list, any other body is ignored, and a failure logs
   * out exactly when its message contains "401".
   */
  function RefreshClubsWith(s: State, tok: Option<string>, reply: Reply<seq<WireClub>>): (r: State)
    ensures !Truthy(tok) ==> r == s
    ensures Truthy(tok) ==> r.sent == s.sent + [MyClubsRequest(tok.value)]
    ensures Truthy(tok) && reply.Got? && reply.payload.Data? ==>
      r == s.(clubs := MapClubs(reply.payload.value), sent := r.sent)
    ensures Truthy(tok) && reply.Got? && !reply.payload.Data? ==> OnlySent(s, r)
    ensures Truthy(tok) && reply.Failed? && Contains(reply.failure.message, "401") ==>
      r == Logout(s).(sent := r.sent)
    ensures Truthy(tok) && reply.Failed? && !Contains(reply.failure.message, "401") ==> OnlySent(s, r)
    ensures SessionOk(s) ==> SessionOk(r)
    ensures s.sent <= r.sent
  {
    if !Truthy(tok) then s
    else
      var s1 := Send(s, MyClubsRequest(tok.value));
      match reply
      case Got(Data(cs)) => s1.(clubs := MapClubs(cs))
      case Got(_) => s1
      case Failed(f) => if Contains(f.message, "401") then Logout(s1) else s1
  }

  function RefreshClubs(s: State, reply: Reply<seq<WireClub>>): (r: State)
    ensures r == RefreshClubsWith(s, s.token, reply)
  {
    RefreshClubsWith(s, s.token, reply)
  }

  /** The club list `createClub` posts: the form's strings, no `is_private`. */
  function ClubForm(name: string, description: string, actionName: string): ClubPayload {
    ClubPayload(name, Some(description), None, Some(actionName))
  }

  /** `createClub`: the create call, then a refresh on success; a failure is only reported. */
  function CreateClub(s: State, name: string, description: string, actionName: string, ack: Ack, clubs: Reply<seq<WireClub>>): (r: State)
    ensures !Authed(s) ==> r == s
    ensures Authed(s) && ack.Failed? ==> r == Send(s, CreateClubRequest(s.token.value, ClubForm(name, description, actionName)))
    ensures Authed(s) && ack.Got? ==>
      r == RefreshClubsWith(Send(s, CreateClubRequest(s.token.value, ClubForm(name, description, actionName))), s.token, clubs)
    ensures SessionOk(s) ==> SessionOk(r)
    ensures s.sent <= r.sent
  {
    if !Authed(s) then s
    else
      var s1 := Send(s, CreateClubRequest(s.token.value, ClubForm(name, description, actionName)));
      if ack.Failed? then s1 else RefreshClubsWith(s1, s.token, clubs)
  }

  function UpdateClub(s: State, clubId: string, name: string, description: string, actionName: string, ack: Ack, clubs: Reply<seq<WireClub>>): (r: State)
    ensures !Authed(s) ==> r == s
    ensures Authed(s) && ack.Failed? ==> r == Send(s, UpdateClubRequest(s.token.value, clubId, ClubForm(name, description, actionName)))
    ensures Authed(s) && ack.Got? ==>
      r == RefreshClubsWith(Send(s, UpdateClubRequest(s.token.value, clubId, ClubForm(name, description, actionName))), s.token, clubs)
    ensures SessionOk(s) ==> SessionOk(r)
    ensures s.sent <= r.sent
  {
    if !Authed(s) then s
    else
      var s1 := Send(s, UpdateClubRequest(s.token.value, clubId, ClubForm(name, description, actionName)));
      if ack.Failed? then s1 else RefreshClubsWith(s1, s.token, clubs)
  }

  /** `joinClub(code)`: the join call by invite code, then a refresh on success. */
  function JoinClub(s: State, code: string, ack: Ack, clubs: Reply<seq<WireClub>>): (r: State)
    ensures !Authed(s) ==> r == s
    ensures Authed(s) && ack.Failed? ==> r == Send(s, AddMemberRequest(s.token.value, code))
    ensures Authed(s) && ack.Got? ==> r == RefreshClubsWith(Send(s, AddMemberRequest(s.token.value, code)), s.token, clubs)
    ensures SessionOk(s) ==> SessionOk(r)
    ensures s.sent <= r.sent
  {
    if !Authed(s) then s
    else
      var s1 := Send(s, AddMemberRequest(s.token.value, code));
      if ack.Failed? then s1 else RefreshClubsWith(s1, s.token, clubs)
  }

  /**
   * `leaveClub`: unlike the other club operations it rethrows a failure;
   * without a token it resolves without doing anything.
   */
  function LeaveClub(s: State, clubId: string, ack: Ack, clubs: Reply<seq<WireClub>>): (r: (State, Option<Failure>))
    ensures !Authed(s) ==> r == (s, None)
    ensures Authed(s) && ack.Failed? ==> r == (Send(s, LeaveClubRequest(s.token.value, clubId)), Some(ack.failure))
    ensures Authed(s) && ack.Got? ==> r == (RefreshClubsWith(Send(s, LeaveClubRequest(s.token.value, clubId)), s.token, clubs), None)
    ensures r.1.Some? <==> Authed(s) && ack.Failed?
    ensures SessionOk(s) ==> SessionOk(r.0)
    ensures s.sent <= r.0.sent
  {
    if !Authed(s) then (s, None)
    else
      var s1 := Send(s, LeaveClubRequest(s.token.value, clubId));
      if ack.Failed? then (s1, Some(ack.failure)) else (RefreshClubsWith(s1, s.token, clubs), None)
  }

  /** `updateAvatar`: on success only the current user's `avatarId` changes. */
  function UpdateAvatar(s: State, avatarId: string, ack: Ack): (r: State)
    ensures !Authed(s) || s.currentUser.None? ==> r == s
    ensures Authed(s) && s.currentUser.Some? && ack.Failed? ==> r == Send(s, UpdateAvatarRequest(s.token.value, avatarId))
    ensures Authed(s) && s.currentUser.Some? && ack.Got? ==>
      r == Send(s, UpdateAvatarRequest(s.token.value, avatarId)).(currentUser := Some(s.currentUser.value.(avatarId := avatarId)))
    ensures SessionOk(s) ==> SessionOk(r)
    ensures s.sent <= r.sent
  {
    if !Authed(s) || s.currentUser.None? then s
    else
      var s1 := Send(s, UpdateAvatarRequest(s.token.value, avatarId));
      if ack.Failed? then s1 else s1.(currentUser := Some(s.currentUser.value.(avatarId := avatarId)))
  }

  // ---- Club data ----

  /**
   * `loadClubData` run with the token its closure captured. The
   * leaderboard replaces the club's members (`null` counts as an empty
   * list); then the newest page of messages, reversed to oldest-first,
   * replaces the club's history and resets its cursor to offset 0 with
   * more to load. A failure, or a body that is not a list, ends the
   * operation where it happens: a bad leaderboard sends no message
   * request, a bad message page leaves the history and the cursor as they
   * were while the members are already replaced. Other clubs' entries
   * never change.
   */
  function LoadClubDataWith(s: State, tok: Option<string>, clubId: string, replies: ClubReplies, nowIso: string): (r: State)
    ensures !Truthy(tok) ==> r == s
    ensures r.token == s.token && r.currentUser == s.currentUser && r.clubs == s.clubs && r.clubStats == s.clubStats
    ensures r.members - {clubId} == s.members - {clubId} && r.messages - {clubId} == s.messages - {clubId}
    ensures r.offsets - {clubId} == s.offsets - {clubId} && r.hasMore - {clubId} == s.hasMore - {clubId}
    ensures Truthy(tok) && !MembersArrive(replies) ==> r == Send(s, LeaderboardRequest(tok.value, clubId))
    ensures Truthy(tok) && MembersArrive(replies) ==>
      r.sent == s.sent + [LeaderboardRequest(tok.value, clubId), MessagesRequest(tok.value, clubId)] &&
      clubId in r.members && r.members[clubId] == MembersOf(replies, clubId, nowIso)
    ensures Truthy(tok) && MembersArrive(replies) && MessagesArrive(replies) ==>
      History(r, clubId) == LiveOf(replies) && Offset(r, clubId) == 0 && HasMore(r, clubId)
    ensures Truthy(tok) && MembersArrive(replies) && !MessagesArrive(replies) ==>
      r.messages == s.messages && r.offsets == s.offsets && r.hasMore == s.hasMore
    ensures s.sent <= r.sent
  {
    if !Truthy(tok) then s
    else
      var s1 := Send(s, LeaderboardRequest(tok.value, clubId));
      if !MembersArrive(replies) then s1
      else
        var s2 := Send(s1.(members := s1.members[clubId := MembersOf(replies, clubId, nowIso)]), MessagesRequest(tok.value, clubId));
        if !MessagesArrive(replies) then s2
        else s2.(messages := s2.messages[clubId := LiveOf(replies)],
                 offsets := s2.offsets[clubId := 0],
                 hasMore := s2.hasMore[clubId := true])
  }

  /** `(leaderboard || []).map(...)` runs: the reply is a list or `null`. */
  predicate MembersArrive(replies: ClubReplies) {
    replies.leaderboard.Got? && !replies.leaderboard.payload.Other?
  }

  predicate MessagesArrive(replies: ClubReplies) {
    replies.messages.Got? && !replies.messages.payload.Other?
  }

  function MembersOf(replies: ClubReplies, clubId: string, nowIso: string): seq<Member>
    requires MembersArrive(replies)
  {
    match replies.leaderboard.payload
    case Data(es) => MapMembers(es, clubId, nowIso)
    case _ => []
  }

  function LiveOf(replies: ClubReplies): seq<Message>
    requires MessagesArrive(replies)
  {
    match replies.messages.payload
    case Data(page) => MapLive(page)
    case _ => []
  }

  function LoadClubData(s: State, clubId: string, replies: ClubReplies, nowIso: string): (r: State)
    ensures r == LoadClubDataWith(s, s.token, clubId, replies, nowIso)
  {
    LoadClubDataWith(s, s.token, clubId, replies, nowIso)
  }

  /** `fetchClubStats` with the captured token: stores and returns whatever body arrives; `null` on failure. */
  function FetchClubStatsWith(s: State, tok: Option<string>, clubId: string, reply: Reply<UserStats>): (r: (State, Payload<UserStats>))
    ensures !Truthy(tok) ==> r == (s, Null)
    ensures Truthy(tok) && reply.Failed? ==> r == (Send(s, StatsRequest(tok.value, clubId)), Null)
    ensures Truthy(tok) && reply.Got? ==>
      r == (Send(s, StatsRequest(tok.value, clubId)).(clubStats := s.clubStats[clubId := reply.payload]), reply.payload)
    ensures r.0.clubStats - {clubId} == s.clubStats - {clubId}
    ensures r.0 == s.(clubStats := r.0.clubStats, sent := r.0.sent) && s.sent <= r.0.sent
  {
    if !Truthy(tok) then (s, Null)
    else
      var s1 := Send(s, StatsRequest(tok.value, clubId));
      match reply
      case Failed(_) => (s1, Null)
      case Got(p) => (s1.(clubStats := s1.clubStats[clubId := p]), p)
  }

  function FetchClubStats(s: State, clubId: string, reply: Reply<UserStats>): (r: (State, Payload<UserStats>))
    ensures r == FetchClubStatsWith(s, s.token, clubId, reply)
  {
    FetchClubStatsWith(s, s.token, clubId, reply)
  }

  /**
   * `incrementScore`: without a token it answers false and calls nothing;
   * if the score call fails it answers false and refreshes nothing;
   * otherwise it reloads the club's data, the club list and the club's
   * stats, all with the token it started with, and answers true.
   */
  function IncrementScore(s: State, clubId: string, ack: Ack, data: ClubReplies, clubs: Reply<seq<WireClub>>,
                          stats: Reply<UserStats>, nowIso: string): (r: (State, bool))
    ensures !Authed(s) ==> r == (s, false)
    ensures Authed(s) && ack.Failed? ==> r == (Send(s, ScoreRequest(s.token.value, clubId)), false)
    ensures Authed(s) && ack.Got? ==>
      r.1 && r.0 == FetchClubStatsWith(
        RefreshClubsWith(
          LoadClubDataWith(Send(s, ScoreRequest(s.token.value, clubId)), s.token, clubId, data, nowIso),
          s.token, clubs),
        s.token, clubId, stats).0
    ensures r.1 <==> Authed(s) && ack.Got?
    ensures Authed(s) ==> |r.0.sent| > |s.sent| && r.0.sent[|s.sent|] == ScoreRequest(s.token.value, clubId)
    ensures SessionOk(s) ==> SessionOk(r.0)
    ensures s.sent <= r.0.sent
  {
    if !Authed(s) then (s, false)
    else
      var tok := s.token;
      var s1 := Send(s, ScoreRequest(tok.value, clubId));
      if ack.Failed? then (s1, false)
      else
        var s2 := LoadClubDataWith(s1, tok, clubId, data, nowIso);
        var s3 := RefreshClubsWith(s2, tok, clubs);
        var s4 := FetchClubStatsWith(s3, tok, clubId, stats).0;
        assert s1.sent <= s4.sent;
        (s4, true)
  }

  /**
   * `sendMessage`: needs a token and a signed-in user; the reply target is
   * dropped, and a successful post reloads the club's data.
   */
  function SendMessage(s: State, clubId: string, text: string, replyToId: Option<string>, ack: Ack,
                       data: ClubReplies, nowIso: string): (r: State)
    ensures !Authed(s) || s.currentUser.None? ==> r == s
    ensures Authed(s) && s.currentUser.Some? && ack.Failed? ==> r == Send(s, SendMessageRequest(s.token.value, clubId, text))
    ensures Authed(s) && s.currentUser.Some? && ack.Got? ==>
      r == LoadClubDataWith(Send(s, SendMessageRequest(s.token.value, clubId, text)), s.token, clubId, data, nowIso)
    ensures SessionOk(s) ==> SessionOk(r)
    ensures s.sent <= r.sent
  {
    if !Authed(s) || s.currentUser.None? then s
    else
      var s1 := Send(s, SendMessageRequest(s.token.value, clubId, text));
      if ack.Failed? then s1 else LoadClubDataWith(s1, s.token, clubId, data, nowIso)
  }

  /** The offset the next older page is requested at. */
  const PageSize: nat := 50

  /**
   * `loadMoreMessages`. An exhausted cursor issues nothing and changes
   * nothing. Otherwise the page at `offset + 50` is requested, limit 50.
   * An empty page (or `null`) marks the cursor exhausted and changes
   * nothing else; a non-empty page advances the offset by exactly 50 and
   * prepends itself, reversed and with `old-` ids, to the history. A body
   * that is not a list advances the offset and then fails in `.map`,
   * leaving the history alone; a failed call changes nothing but the log.
   */
  function LoadMoreMessages(s: State, clubId: string, reply: Reply<seq<WireMessage>>): (r: State)
    ensures !Authed(s) || !HasMore(s, clubId) ==> r == s
    ensures Authed(s) && HasMore(s, clubId) ==>
      r.sent == s.sent + [MessagesRequest(s.token.value, clubId, PageSize, Offset(s, clubId) + PageSize)]
    ensures Authed(s) && HasMore(s, clubId) && reply.Failed? ==> OnlySent(s, r)
    ensures Authed(s) && HasMore(s, clubId) && EmptyPage(reply) ==>
      !HasMore(r, clubId) && r == s.(hasMore := s.hasMore[clubId := false], sent := r.sent)
    ensures Authed(s) && HasMore(s, clubId) && reply == Got(Other) ==>
      Offset(r, clubId) == Offset(s, clubId) + PageSize && r == s.(offsets := r.offsets, sent := r.sent)
    ensures Authed(s) && HasMore(s, clubId) && FullPage(reply) ==>
      Offset(r, clubId) == Offset(s, clubId) + PageSize && HasMore(r, clubId) &&
      History(r, clubId) == MapOlder(reply.payload.value, Offset(s, clubId)) + History(s, clubId) &&
      r == s.(offsets := r.offsets, messages := r.messages, sent := r.sent)
    ensures r.offsets - {clubId} == s.offsets - {clubId} && r.hasMore - {clubId} == s.hasMore - {clubId}
    ensures r.messages - {clubId} == s.messages - {clubId}
    ensures s.sent <= r.sent
  {
    if !Authed(s) then s
    else
      var offset := Offset(s, clubId);
      if !HasMore(s, clubId) then s
      else
        var s1 := Send(s, MessagesRequest(s.token.value, clubId, PageSize, offset + PageSize));
        match reply
        case Failed(_) => s1
        case Got(Null) => s1.(hasMore := s1.hasMore[clubId := false])
        case Got(Data(older)) =>
          if |older| == 0 then s1.(hasMore := s1.hasMore[clubId := false])
          else s1.(offsets := s1.offsets[clubId := offset + PageSize],
                   messages := s1.messages[clubId := MapOlder(older, offset) + History(s1, clubId)])
        case Got(Other) => s1.(offsets := s1.offsets[clubId := offset + PageSize])
  }

  /** `!older || older.length === 0`. */
  predicate EmptyPage(reply: Reply<seq<WireMessage>>) {
    reply.Got? && (reply.payload.Null? || (reply.payload.Data? && |reply.payload.value| == 0))
  }

  predicate FullPage(reply: Reply<seq<WireMessage>>) {
    reply.Got? && reply.payload.Data? && |reply.payload.value| > 0
  }

  // ---- Properties across calls ----

  /** `loadMoreMessages` called once per reply, in order. */
  function LoadMoreRun(s: State, clubId: string, replies: seq<Reply<seq<WireMessage>>>): State
    decreases |replies|
  {
    if replies == [] then s
    else LoadMoreRun(LoadMoreMessages(s, clubId, replies[0]), clubId, replies[1..])
  }

  /** The older-page requests for `n` pages from `offset` on: offsets `offset + 50`, `offset + 100`, and so on. */
  function PageRequests(tok: string, clubId: string, offset: nat, n: nat): (rs: seq<Request>)
    ensures |rs| == n
    ensures forall k :: 0 <= k < n ==> rs[k] == MessagesRequest(tok, clubId, PageSize, offset + PageSize * (k + 1))
    decreases n
  {
    if n == 0 then [] else [MessagesRequest(tok, clubId, PageSize, offset + PageSize)] + PageRequests(tok, clubId, offset + PageSize, n - 1)
  }

  function TotalSize(replies: seq<Reply<seq<WireMessage>>>): nat
    requires forall k :: 0 <= k < |replies| ==> FullPage(replies[k])
    decreases |replies|
  {
    if replies == [] then 0
    else assert FullPage(replies[0]); |replies[0].payload.value| + TotalSize(replies[1..])
  }

  /** One non-empty older page, as the facts the run lemmas below chain together. */
  lemma FullPageStep(s: State, clubId: string, reply: Reply<seq<WireMessage>>)
    requires Authed(s) && HasMore(s, clubId) && FullPage(reply)
    ensures var t := LoadMoreMessages(s, clubId, reply);
      Authed(t) && HasMore(t, clubId) && t.token == s.token && t.members == s.members &&
      Offset(t, clubId) == Offset(s, clubId) + PageSize &&
      t.sent == s.sent + [MessagesRequest(s.token.value, clubId, PageSize, Offset(s, clubId) + PageSize)] &&
      History(t, clubId) == MapOlder(reply.payload.value, Offset(s, clubId)) + History(s, clubId)
  {
  }

  /**
   * A run of non-empty older pages moves the cursor forward by exactly 50
   * per page and never exhausts it.
   */
  lemma {:induction false} FullPagesAdvanceCursor(s: State, clubId: string, replies: seq<Reply<seq<WireMessage>>>)
    requires Authed(s) && HasMore(s, clubId)
    requires forall k :: 0 <= k < |replies| ==> FullPage(replies[k])
    ensures var t := LoadMoreRun(s, clubId, replies);
      Offset(t, clubId) == Offset(s, clubId) + PageSize * |replies| && HasMore(t, clubId) &&
      t.token == s.token && t.members == s.members
    decreases |replies|
  {
    if replies != [] {
      FullPageStep(s, clubId, replies[0]);
      FullPagesAdvanceCursor(LoadMoreMessages(s, clubId, replies[0]), clubId, replies[1..]);
    }
  }

  /** Peeling the first request off a run of page requests. */
  lemma PageRequestsCons(pre: seq<Request>, tok: string, clubId: string, offset: nat, n: nat)
    requires n > 0
    ensures pre + PageRequests(tok, clubId, offset, n) ==
      (pre + [MessagesRequest(tok, clubId, PageSize, offset + PageSize)]) + PageRequests(tok, clubId, offset + PageSize, n - 1)
  {
  }

  /** The same run requests its pages at consecutive offsets, one request per page. */
  lemma {:induction false} FullPagesRequestInOrder(s: State, clubId: string, replies: seq<Reply<seq<WireMessage>>>)
    requires Authed(s) && HasMore(s, clubId)
    requires forall k :: 0 <= k < |replies| ==> FullPage(replies[k])
    ensures LoadMoreRun(s, clubId, replies).sent == s.sent + PageRequests(s.token.value, clubId, Offset(s, clubId), |replies|)
    decreases |replies|
  {
    if replies != [] {
      FullPageStep(s, clubId, replies[0]);
      FullPagesRequestInOrder(LoadMoreMessages(s, clubId, replies[0]), clubId, replies[1..]);
      PageRequestsCons(s.sent, s.token.value, clubId, Offset(s, clubId), |replies|);
    }
  }

  /**
   * The same run only ever prepends: the history before it is a suffix
   * of the history after it, which is longer by the pages' sizes.
   */
  lemma {:induction false} FullPagesOnlyPrepend(s: State, clubId: string, replies: seq<Reply<seq<WireMessage>>>)
    requires Authed(s) && HasMore(s, clubId)
    requires forall k :: 0 <= k < |replies| ==> FullPage(replies[k])
    ensures var t := LoadMoreRun(s, clubId, replies);
      |History(t, clubId)| == |History(s, clubId)| + TotalSize(replies) &&
      History(t, clubId)[TotalSize(replies)..] == History(s, clubId)
    decreases |replies|
  {
    if replies != [] {
      var s1 := LoadMoreMessages(s, clubId, replies[0]);
      var n := |replies[0].payload.value|;
      FullPageStep(s, clubId, replies[0]);
      FullPagesOnlyPrepend(s1, clubId, replies[1..]);
      var t := LoadMoreRun(s1, clubId, replies[1..]);
      var rest := TotalSize(replies[1..]);
      assert History(t, clubId)[rest..] == History(s1, clubId);
      assert History(s1, clubId)[n..] == History(s, clubId);
      assert History(t, clubId)[rest + n..] == History(s1, clubId)[n..];
    }
  }

  /** Once a club's cursor is exhausted, no number of further calls sends anything or changes anything. */
  lemma {:induction false} ExhaustedStaysPut(s: State, clubId: string, replies: seq<Reply<seq<WireMessage>>>)
    requires !HasMore(s, clubId)
    ensures LoadMoreRun(s, clubId, replies) == s
    decreases |replies|
  {
    if replies != [] {
      ExhaustedStaysPut(s, clubId, replies[1..]);
    }
  }

  /** An empty page exhausts the cursor for good: every later call is a no-op. */
  lemma EmptyPageEndsPaging(s: State, clubId: string, page: Reply<seq<WireMessage>>, later: seq<Reply<seq<WireMessage>>>)
    requires Authed(s) && HasMore(s, clubId) && EmptyPage(page)
    ensures var t := LoadMoreMessages(s, clubId, page);
      LoadMoreRun(t, clubId, later) == t && Offset(t, clubId) == Offset(s, clubId) && History(t, clubId) == History(s, clubId)
  {
    ExhaustedStaysPut(LoadMoreMessages(s, clubId, page), clubId, later);
  }

  /** After a reload whose messages arrive, the next older page is requested at offset 50 again. */
  lemma ReloadRestartsPaging(s: State, clubId: string, replies: ClubReplies, nowIso: string, page: Reply<seq<WireMessage>>)
    requires Authed(s) && MembersArrive(replies) && MessagesArrive(replies)
    ensures var t := LoadClubData(s, clubId, replies, nowIso);
      LoadMoreMessages(t, clubId, page).sent == t.sent + [MessagesRequest(s.token.value, clubId, PageSize, PageSize)]
  {
  }

  /**
   * Whether a failed `refreshClubs` logs out depends only on the text of
   * the error message, which for an HTTP error is the response body: the
   * status code plays no part.
   */
  lemma LogoutDecidedByBody(s: State, res: HttpResponse)
    requires Authed(s) && !IsOk(res.status)
    ensures var t := RefreshClubs(s, Failed(Classify(res).error));
      t.token.None? <==> Contains(if res.body != "" then res.body else "Request failed", "401")
  {
  }

  /** So a 401 with an empty body keeps the session ... */
  lemma EmptyUnauthorizedKeepsSession(s: State, contentLength: Option<string>)
    requires Authed(s)
    ensures RefreshClubs(s, Failed(Classify(HttpResponse(401, "", contentLength)).error)).token == s.token
  {
    var e := Classify(HttpResponse(401, "", contentLength)).error;
    assert e == ApiError("Request failed", 401);
    assert '4' !in "Request failed";
    ContainsNeedsFirstChar("Request failed", "401");
  }

  /** ... and a server error whose body starts with "401" ends it. */
  lemma BodyWith401LogsOut(s: State, status: int, rest: string, contentLength: Option<string>)
    requires Authed(s) && !IsOk(status)
    ensures RefreshClubs(s, Failed(Classify(HttpResponse(status, "401" + rest, contentLength)).error)).token.None?
  {
    var e := Classify(HttpResponse(status, "401" + rest, contentLength)).error;
    assert e.message == "401" + rest;
    assert "401" <= "401" + rest;
  }

  // ---- Every operation, as one step ----

  datatype Action =
    | DoLogin(username: string, password: string, login: Reply<LoginResponse>)
    | DoSignup(username: string, password: string, ack: Ack, login: Reply<LoginResponse>)
    | DoLogout
    | DoRefreshClubs(clubs: Reply<seq<WireClub>>)
    | DoCreateClub(name: string, description: string, actionName: string, ack: Ack, clubs: Reply<seq<WireClub>>)
    | DoUpdateClub(clubId: string, name: string, description: string, actionName: string, ack: Ack, clubs: Reply<seq<WireClub>>)
    | DoJoinClub(code: string, ack: Ack, clubs: Reply<seq<WireClub>>)
    | DoLeaveClub(clubId: string, ack: Ack, clubs: Reply<seq<WireClub>>)
    | DoUpdateAvatar(avatarId: string, ack: Ack)
    | DoLoadClubData(clubId: string, data: ClubReplies, nowIso: string)
    | DoFetchClubStats(clubId: string, stats: Reply<UserStats>)
    | DoIncrementScore(clubId: string, ack: Ack, data: ClubReplies, clubs: Reply<seq<WireClub>>, stats: Reply<UserStats>, nowIso: string)
    | DoSendMessage(clubId: string, text: string, replyToId: Option<string>, ack: Ack, data: ClubReplies, nowIso: string)
    | DoLoadMoreMessages(clubId: string, page: Reply<seq<WireMessage>>)

  function Step(s: State, a: Action): (r: State)
    ensures SessionOk(s) ==> SessionOk(r)
    ensures s.sent <= r.sent
  {
    match a
    case DoLogin(u, p, l) => Login(s, u, p, l).0
    case DoSignup(u, p, ack, l) => Signup(s, u, p, ack, l).0
    case DoLogout => Logout(s)
    case DoRefreshClubs(c) => RefreshClubs(s, c)
    case DoCreateClub(n, d, act, ack, c) => CreateClub(s, n, d, act, ack, c)
    case DoUpdateClub(id, n, d, act, ack, c) => UpdateClub(s, id, n, d, act, ack, c)
    case DoJoinClub(code, ack, c) => JoinClub(s, code, ack, c)
    case DoLeaveClub(id, ack, c) => LeaveClub(s, id, ack, c).0
    case DoUpdateAvatar(av, ack) => UpdateAvatar(s, av, ack)
    case DoLoadClubData(id, d, now) => LoadClubData(s, id, d, now)
    case DoFetchClubStats(id, st) => FetchClubStats(s, id, st).0
    case DoIncrementScore(id, ack, d, c, st, now) => IncrementScore(s, id, ack, d, c, st, now).0
    case DoSendMessage(id, t, rt, ack, d, now) => SendMessage(s, id, t, rt, ack, d, now)
    case DoLoadMoreMessages(id, pg) => LoadMoreMessages(s, id, pg)
  }

  function Run(s: State, actions: seq<Action>): State
    decreases |actions|
  {
    if actions == [] then s else Run(Step(s, actions[0]), actions[1..])
  }

  /**
   * Over any sequence of operations the token and the user are present
   * together or absent together, and the request log only grows.
   */
  lemma {:induction false} RunKeepsSession(s: State, actions: seq<Action>)
    requires SessionOk(s)
    ensures SessionOk(Run(s, actions)) && s.sent <= Run(s, actions).sent
    decreases |actions|
  {
    if actions != [] {
      RunKeepsSession(Step(s, actions[0]), actions[1..]);
    }
  }

  /** Without a token, no operation but `login` and `signup` calls the server. */
  lemma SignedOutSendsOnlyCredentials(s: State, a: Action)
    requires s.token.None?
    requires !a.DoLogin? && !a.DoSignup?
    ensures Step(s, a).sent == s.sent
  {
  }
}
