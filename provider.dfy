/**
 * `AppProvider` of store.tsx as an object: React state and the two
 * cursor dictionaries become fields that each operation updates in place.
 * Every method is proved to move the object exactly as the matching
 * transition of module `Store` moves its state.
 */
module Provider {
  import opened Wrappers
  import opened Text
  import opened Types
  import opened Api
  import opened StoreMappers
  import opened UserStyle
  import opened Store

  class AppStore {
    var token: Option<string>
    var currentUser: Option<User>
    var clubs: seq<Club>
    var members: map<string, seq<Member>>
    var messages: map<string, seq<Message>>
    var clubStats: map<string, Payload<UserStats>>
    /** `messageOffsets.current`. */
    var messageOffsets: map<string, nat>
    /** `messageHasMore.current`. */
    var messageHasMore: map<string, bool>
    /** Every request issued so far, oldest first. */
    var sent: seq<Request>

    function Snapshot(): State
      reads this
    {
      State(token, currentUser, clubs, members, messages, clubStats, messageOffsets, messageHasMore, sent)
    }

    constructor(savedToken: Option<string>, savedUser: Option<User>)
      ensures Snapshot() == Initial(savedToken, savedUser)
    {
      token := savedToken;
      currentUser := savedUser;
      clubs := [];
      members := map[];
      messages := map[];
      clubStats := map[];
      messageOffsets := map[];
      messageHasMore := map[];
      sent := [];
    }

    /** Issues one request. */
    method Call(r: Request)
      modifies this
      ensures Snapshot() == Send(old(Snapshot()), r)
    {
      sent := sent + [r];
    }

    method Logout()
      modifies this
      ensures Snapshot() == Store.Logout(old(Snapshot()))
    {
      token := None;
      currentUser := None;
      clubs := [];
    }

    method Login(username: string, password: string, reply: Reply<LoginResponse>) returns (err: Option<Failure>)
      modifies this
      ensures (Snapshot(), err) == Store.Login(old(Snapshot()), username, password, reply)
    {
      Call(LoginRequest(username, password));
      match reply {
        case Failed(f) =>
          err := Some(f);
        case Got(Data(res)) =>
          var color, initials := GenerateUserStyle(res.user.username);
          var avatarId := if res.user.avatarId.Some? && res.user.avatarId.value != "" then res.user.avatarId.value else initials;
          var user := User(IntToString(res.user.id), res.user.username, avatarId, color);
          token := Some(res.token);
          currentUser := Some(user);
          err := None;
        case Got(_) =>
          err := Some(ClientError(TypeErrorMessage));
      }
    }

    method Signup(username: string, password: string, ack: Ack, reply: Reply<LoginResponse>) returns (err: Option<Failure>)
      modifies this
      ensures (Snapshot(), err) == Store.Signup(old(Snapshot()), username, password, ack, reply)
    {
      Call(SignupRequest(username, password));
      if ack.Failed? {
        err := Some(ack.failure);
      } else {
        err := Login(username, password, reply);
      }
    }

    method RefreshClubsWith(tok: Option<string>, reply: Reply<seq<WireClub>>)
      modifies this
      ensures Snapshot() == Store.RefreshClubsWith(old(Snapshot()), tok, reply)
    {
      if !Truthy(tok) {
        return;
      }
      Call(MyClubsRequest(tok.value));
      match reply {
        case Got(Data(myClubs)) =>
          clubs := MapClubs(myClubs);
        case Got(_) =>
        case Failed(e) =>
          if Contains(e.message, "401") {
            Logout();
          }
      }
    }

    method RefreshClubs(reply: Reply<seq<WireClub>>)
      modifies this
      ensures Snapshot() == Store.RefreshClubs(old(Snapshot()), reply)
    {
      RefreshClubsWith(token, reply);
    }

    method CreateClub(name: string, description: string, actionName: string, ack: Ack, reply: Reply<seq<WireClub>>)
      modifies this
      ensures Snapshot() == Store.CreateClub(old(Snapshot()), name, description, actionName, ack, reply)
    {
      if !Truthy(token) {
        return;
      }
      var tok := token;
      Call(CreateClubRequest(tok.value, ClubForm(name, description, actionName)));
      if ack.Got? {
        RefreshClubsWith(tok, reply);
      }
    }

    method UpdateClub(clubId: string, name: string, description: string, actionName: string, ack: Ack, reply: Reply<seq<WireClub>>)
      modifies this
      ensures Snapshot() == Store.UpdateClub(old(Snapshot()), clubId, name, description, actionName, ack, reply)
    {
      if !Truthy(token) {
        return;
      }
      var tok := token;
      Call(UpdateClubRequest(tok.value, clubId, ClubForm(name, description, actionName)));
      if ack.Got? {
        RefreshClubsWith(tok, reply);
      }
    }

    method JoinClub(code: string, ack: Ack, reply: Reply<seq<WireClub>>)
      modifies this
      ensures Snapshot() == Store.JoinClub(old(Snapshot()), code, ack, reply)
    {
      if !Truthy(token) {
        return;
      }
      var tok := token;
      Call(AddMemberRequest(tok.value, code));
      if ack.Got? {
        RefreshClubsWith(tok, reply);
      }
    }

    method LeaveClub(clubId: string, ack: Ack, reply: Reply<seq<WireClub>>) returns (err: Option<Failure>)
      modifies this
      ensures (Snapshot(), err) == Store.LeaveClub(old(Snapshot()), clubId, ack, reply)
    {
      err := None;
      if !Truthy(token) {
        return;
      }
      var tok := token;
      Call(LeaveClubRequest(tok.value, clubId));
      if ack.Failed? {
        err := Some(ack.failure);
      } else {
        RefreshClubsWith(tok, reply);
      }
    }

    method UpdateAvatar(avatarId: string, ack: Ack)
      modifies this
      ensures Snapshot() == Store.UpdateAvatar(old(Snapshot()), avatarId, ack)
    {
      if !Truthy(token) || currentUser.None? {
        return;
      }
      var user := currentUser.value;
      Call(UpdateAvatarRequest(token.value, avatarId));
      if ack.Got? {
        currentUser := Some(user.(avatarId := avatarId));
      }
    }

    method LoadClubDataWith(tok: Option<string>, clubId: string, replies: ClubReplies, nowIso: string)
      modifies this
      ensures Snapshot() == Store.LoadClubDataWith(old(Snapshot()), tok, clubId, replies, nowIso)
    {
      if !Truthy(tok) {
        return;
      }
      Call(LeaderboardRequest(tok.value, clubId));
      var mappedMembers: seq<Member>;
      match replies.leaderboard {
        case Got(Data(entries)) => mappedMembers := MapMembers(entries, clubId, nowIso);
        case Got(Null) => mappedMembers := [];
        case _ => return;
      }
      members := members[clubId := mappedMembers];
      Call(MessagesRequest(tok.value, clubId));
      var mappedMessages: seq<Message>;
      match replies.messages {
        case Got(Data(backendMessages)) => mappedMessages := MapLive(backendMessages);
        case Got(Null) => mappedMessages := [];
        case _ => return;
      }
      messages := messages[clubId := mappedMessages];
      messageOffsets := messageOffsets[clubId := 0];
      messageHasMore := messageHasMore[clubId := true];
    }

    method LoadClubData(clubId: string, replies: ClubReplies, nowIso: string)
      modifies this
      ensures Snapshot() == Store.LoadClubData(old(Snapshot()), clubId, replies, nowIso)
    {
      LoadClubDataWith(token, clubId, replies, nowIso);
    }

    method FetchClubStatsWith(tok: Option<string>, clubId: string, reply: Reply<UserStats>) returns (data: Payload<UserStats>)
      modifies this
      ensures (Snapshot(), data) == Store.FetchClubStatsWith(old(Snapshot()), tok, clubId, reply)
    {
      if !Truthy(tok) {
        return Null;
      }
      Call(StatsRequest(tok.value, clubId));
      match reply {
        case Failed(_) =>
          data := Null;
        case Got(p) =>
          clubStats := clubStats[clubId := p];
          data := p;
      }
    }

    method FetchClubStats(clubId: string, reply: Reply<UserStats>) returns (data: Payload<UserStats>)
      modifies this
      ensures (Snapshot(), data) == Store.FetchClubStats(old(Snapshot()), clubId, reply)
    {
      data := FetchClubStatsWith(token, clubId, reply);
    }

    /** The three refreshes of `Promise.all` run one after the other, each with the token the call began with. */
    method IncrementScore(clubId: string, ack: Ack, data: ClubReplies, clubsReply: Reply<seq<WireClub>>,
                          stats: Reply<UserStats>, nowIso: string) returns (ok: bool)
      modifies this
      ensures (Snapshot(), ok) == Store.IncrementScore(old(Snapshot()), clubId, ack, data, clubsReply, stats, nowIso)
    {
      if !Truthy(token) {
        return false;
      }
      var tok := token;
      Call(ScoreRequest(tok.value, clubId));
      if ack.Failed? {
        return false;
      }
      LoadClubDataWith(tok, clubId, data, nowIso);
      RefreshClubsWith(tok, clubsReply);
      var _ := FetchClubStatsWith(tok, clubId, stats);
      ok := true;
    }

    method SendMessage(clubId: string, text: string, replyToId: Option<string>, ack: Ack, data: ClubReplies, nowIso: string)
      modifies this
      ensures Snapshot() == Store.SendMessage(old(Snapshot()), clubId, text, replyToId, ack, data, nowIso)
    {
      if !Truthy(token) || currentUser.None? {
        return;
      }
      var tok := token;
      Call(SendMessageRequest(tok.value, clubId, text));
      if ack.Got? {
        LoadClubDataWith(tok, clubId, data, nowIso);
      }
    }

    method LoadMoreMessages(clubId: string, reply: Reply<seq<WireMessage>>)
      modifies this
      ensures Snapshot() == Store.LoadMoreMessages(old(Snapshot()), clubId, reply)
    {
      if !Truthy(token) {
        return;
      }
      var offset := if clubId in messageOffsets then messageOffsets[clubId] else 0;
      var hasMore := if clubId in messageHasMore then messageHasMore[clubId] else true;
      if !hasMore {
        return;
      }
      Call(MessagesRequest(token.value, clubId, PageSize, offset + PageSize));
      match reply {
        case Failed(_) =>
        case Got(Null) =>
          messageHasMore := messageHasMore[clubId := false];
        case Got(Data(older)) =>
          if |older| == 0 {
            messageHasMore := messageHasMore[clubId := false];
          } else {
            messageOffsets := messageOffsets[clubId := offset + PageSize];
            var mapped := MapOlder(older, offset);
            var prev := if clubId in messages then messages[clubId] else [];
            messages := messages[clubId := mapped + prev];
          }
        case Got(Other) =>
          messageOffsets := messageOffsets[clubId := offset + PageSize];
      }
    }
  }
}
