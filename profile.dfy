/**
 * What components/UserProfileModal.tsx shows about a user: the clubs in
 * which the user is a member, the name and avatar taken from those
 * memberships (or from the signed-in user when it is them), the
 * membership for the club being viewed, and the longest streak shown.
 */
module Profile {
  import opened Wrappers
  import opened Text
  import opened Types
  import opened Api
  import ClubView

  /** One entry of `userClubsData`. */
  datatype ClubMembership = ClubMembership(club: Club, membership: Member)

  /** `userId === currentUser?.id`. */
  predicate IsMe(userId: string, currentUser: Option<User>) {
    currentUser.Some? && userId == currentUser.value.id
  }

  /** The entry one club adds: its first membership of the user, if its member list is loaded and has one. */
  function EntryFor(club: Club, members: map<string, seq<Member>>, userId: string): (r: Option<ClubMembership>)
    ensures r.Some? ==>
      club.id in members && r.value.club == club &&
      exists i :: 0 <= i < |members[club.id]| && members[club.id][i] == r.value.membership &&
        r.value.membership.userId == userId && forall j :: 0 <= j < i ==> members[club.id][j].userId != userId
    ensures r.None? ==> club.id !in members || forall j :: 0 <= j < |members[club.id]| ==> members[club.id][j].userId != userId
  {
    if club.id !in members then None
    else match ClubView.FindMember(members[club.id], userId)
      case Some(k) => Some(ClubMembership(club, members[club.id][k]))
      case None => None
  }

  /** `userClubsData` as a reference definition: the entries, in `clubs` order. */
  function UserClubs(clubs: seq<Club>, members: map<string, seq<Member>>, userId: string): seq<ClubMembership>
    decreases |clubs|
  {
    if clubs == [] then []
    else
      var init := UserClubs(clubs[..|clubs| - 1], members, userId);
      match EntryFor(clubs[|clubs| - 1], members, userId)
      case Some(e) => init + [e]
      case None => init
  }

  /** The gathering splits over a split of the club list, so each club contributes its own entry, in order. */
  lemma {:induction false} UserClubsAppend(a: seq<Club>, b: seq<Club>, members: map<string, seq<Member>>, userId: string)
    ensures UserClubs(a + b, members, userId) == UserClubs(a, members, userId) + UserClubs(b, members, userId)
    decreases |b|
  {
    if b == [] {
      assert a + b == a;
    } else {
      var b0 := b[..|b| - 1];
      assert (a + b)[..|a + b| - 1] == a + b0;
      assert (a + b)[|a + b| - 1] == b[|b| - 1];
      UserClubsAppend(a, b0, members, userId);
    }
  }

  lemma UserClubsSingle(c: Club, members: map<string, seq<Member>>, userId: string)
    ensures UserClubs([c], members, userId) == match EntryFor(c, members, userId) case Some(e) => [e] case None => []
  {
    assert [c][..0] == [];
  }

  /** Every entry's member is the user, and belongs to the entry's club. */
  lemma {:induction false} UserClubsSound(clubs: seq<Club>, members: map<string, seq<Member>>, userId: string)
    ensures forall k :: 0 <= k < |UserClubs(clubs, members, userId)| ==>
      UserClubs(clubs, members, userId)[k].membership.userId == userId &&
      UserClubs(clubs, members, userId)[k].club in clubs
    decreases |clubs|
  {
    if clubs != [] {
      var init := clubs[..|clubs| - 1];
      UserClubsSound(init, members, userId);
      assert forall c :: c in init ==> c in clubs;
    }
  }

  /** The `reduce` step on the name and avatar: the first membership fills them while the name is still 'Unknown'. */
  function PickStep(id: (string, Option<string>), m: Member): (string, Option<string>) {
    if id.0 == "Unknown" then (m.username, m.avatarId) else id
  }

  /** The name and avatar the `reduce` leaves behind, starting from ('Unknown', undefined). */
  function Identity(data: seq<ClubMembership>): (string, Option<string>)
    decreases |data|
  {
    if data == [] then ("Unknown", None)
    else PickStep(Identity(data[..|data| - 1]), data[|data| - 1].membership)
  }

  /**
   * The first membership whose name is not 'Unknown' gives the name and
   * avatar; a later one cannot replace it.
   */
  lemma {:induction false} IdentityFirstKnown(data: seq<ClubMembership>, i: nat)
    requires i < |data| && data[i].membership.username != "Unknown"
    requires forall j :: 0 <= j < i ==> data[j].membership.username == "Unknown"
    ensures Identity(data) == (data[i].membership.username, data[i].membership.avatarId)
    decreases |data|
  {
    if |data| - 1 > i {
      IdentityFirstKnown(data[..|data| - 1], i);
    } else {
      IdentityAllUnknown(data[..i]);
      assert data[..|data| - 1] == data[..i];
    }
  }

  /** While every name seen is 'Unknown' the name stays 'Unknown' and the avatar is the last one seen. */
  lemma {:induction false} IdentityAllUnknown(data: seq<ClubMembership>)
    requires forall j :: 0 <= j < |data| ==> data[j].membership.username == "Unknown"
    ensures Identity(data) == ("Unknown", if data == [] then None else data[|data| - 1].membership.avatarId)
    decreases |data|
  {
    if data != [] {
      IdentityAllUnknown(data[..|data| - 1]);
    }
  }

  /** The name and avatar shown: the signed-in user's own when it is them. */
  function Displayed(userId: string, currentUser: Option<User>, data: seq<ClubMembership>): (r: (string, Option<string>))
    ensures IsMe(userId, currentUser) ==> r == (currentUser.value.username, Some(currentUser.value.avatarId))
    ensures !IsMe(userId, currentUser) && data == [] ==> r == ("Unknown", None)
    ensures !IsMe(userId, currentUser) ==> r == Identity(data)
  {
    if IsMe(userId, currentUser) then (currentUser.value.username, Some(currentUser.value.avatarId))
    else Identity(data)
  }

  /** The modal's gathering pass over `clubs`, reassigning the name and avatar as it goes. */
  method GatherProfile(userId: string, clubs: seq<Club>, members: map<string, seq<Member>>, currentUser: Option<User>)
    returns (userClubsData: seq<ClubMembership>, username: string, avatarId: Option<string>)
    ensures userClubsData == UserClubs(clubs, members, userId)
    ensures (username, avatarId) == Displayed(userId, currentUser, userClubsData)
  {
    username := "Unknown";
    avatarId := None;
    userClubsData := [];
    var i := 0;
    while i < |clubs|
      invariant 0 <= i <= |clubs|
      invariant userClubsData == UserClubs(clubs[..i], members, userId)
      invariant (username, avatarId) == Identity(userClubsData)
    {
      var club := clubs[i];
      assert clubs[..i + 1][..i] == clubs[..i];
      if club.id in members {
        var clubMembers := members[club.id];
        var found := ClubView.FindMember(clubMembers, userId);
        if found.Some? {
          var membership := clubMembers[found.value];
          assert userClubsData + [ClubMembership(club, membership)] == UserClubs(clubs[..i + 1], members, userId);
          userClubsData := userClubsData + [ClubMembership(club, membership)];
          assert userClubsData[..|userClubsData| - 1] == UserClubs(clubs[..i], members, userId);
          if username == "Unknown" {
            username := membership.username;
            avatarId := membership.avatarId;
          }
        }
      }
      i := i + 1;
    }
    assert clubs[..i] == clubs;
    if IsMe(userId, currentUser) {
      username := currentUser.value.username;
      avatarId := Some(currentUser.value.avatarId);
    }
  }

  /** `activeMembership`: the entry for the club being viewed, if it has one; nothing without a club id. */
  function ActiveMembership(data: seq<ClubMembership>, activeClubId: Option<string>): (r: Option<Member>)
    ensures !Truthy(activeClubId) ==> r.None?
    ensures Truthy(activeClubId) && r.None? ==> forall k :: 0 <= k < |data| ==> data[k].club.id != activeClubId.value
    ensures r.Some? ==>
      Truthy(activeClubId) &&
      exists k :: 0 <= k < |data| && data[k].club.id == activeClubId.value && data[k].membership == r.value &&
        forall j :: 0 <= j < k ==> data[j].club.id != activeClubId.value
    decreases |data|
  {
    if !Truthy(activeClubId) || data == [] then None
    else if data[0].club.id == activeClubId.value then Some(data[0].membership)
    else
      var r := ActiveMembership(data[1..], activeClubId);
      if r.Some? then
        ghost var k :| 0 <= k < |data[1..]| && data[1..][k].club.id == activeClubId.value && data[1..][k].membership == r.value &&
          forall j :: 0 <= j < k ==> data[1..][j].club.id != activeClubId.value;
        assert data[k + 1] == data[1..][k];
        r
      else r
  }

  /** `longestStreak || streak`: a longest streak of 0 shows the current streak instead. */
  function LongestShown(m: Member): (n: int)
    ensures m.longestStreak != 0 ==> n == m.longestStreak
    ensures m.longestStreak == 0 ==> n == m.streak
  {
    if m.longestStreak != 0 then m.longestStreak else m.streak
  }
}
