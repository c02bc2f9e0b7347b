/**
 * The check-in gate of pages/ClubView.tsx: the countdown to the next
 * allowed check-in, its `m:ss` rendering, the button guard, the current
 * user's score, and the page state that the countdown and the button
 * update. Times are integer milliseconds since the epoch.
 */
module ClubView {
  import opened Wrappers
  import opened Text
  import opened Types
  import opened Api
  import opened Store
  import opened Provider

  /** `Math.max(0, nextCheckIn - now)`. */
  function RemainingMs(nextCheckIn: int, now: int): (r: nat)
    ensures r == 0 <==> now >= nextCheckIn
    ensures r > 0 ==> r == nextCheckIn - now
  {
    if nextCheckIn - now > 0 then nextCheckIn - now else 0
  }

  /** `Math.ceil(ms / 1000)`. */
  function TotalSeconds(ms: nat): (t: nat)
    ensures t * 1000 >= ms && (t == 0 || (t - 1) * 1000 < ms)
  {
    (ms + 999) / 1000
  }

  /** `s.toString().padStart(2, '0')` for a seconds value. */
  function Pad2(s: nat): (r: string)
    requires s < 60
    ensures |r| == 2 && AllDigits(r)
  {
    if s < 10 then "0" + NatToString(s) else (TwoDigits(s); NatToString(s))
  }

  lemma TwoDigits(s: nat)
    requires 10 <= s < 100
    ensures |NatToString(s)| == 2
  {
    assert NatToString(s) == NatToString(s / 10) + [DigitChar(s % 10)];
  }

  /** `formatTime`: whole minutes, a colon, and the seconds in two digits. */
  function FormatTime(ms: nat): string {
    var t := TotalSeconds(ms);
    NatToString(t / 60) + ":" + Pad2(t % 60)
  }

  /** Reads an `m:ss` string back; the seconds part must be exactly two digits. */
  function ParseClock(text: string): Option<(nat, nat)> {
    match IndexOf(text, ':')
    case None => None
    case Some(k) =>
      var sec := text[k + 1..];
      if |sec| != 2 then None
      else match (ParseNat(text[..k]), ParseNat(sec))
        case (Some(m), Some(s)) => Some((m, s))
        case _ => None
  }

  lemma Pad2Value(s: nat)
    requires s < 60
    ensures ParseNat(Pad2(s)) == Some(s)
  {
    NatToStringRoundTrip(s);
    if s < 10 {
      LeadingZero(NatToString(s));
    }
  }

  /**
   * `formatTime(ms)` shows the ceiling of `ms / 1000` seconds as minutes
   * and seconds, with the seconds below 60 and always two digits.
   */
  lemma FormatTimeRoundTrip(ms: nat)
    ensures var t := TotalSeconds(ms);
      ParseClock(FormatTime(ms)) == Some((t / 60, t % 60)) &&
      t % 60 < 60 && (t / 60) * 60 + t % 60 == t
  {
    var t := TotalSeconds(ms);
    var a := NatToString(t / 60);
    var b := Pad2(t % 60);
    var text := a + ":" + b;
    DigitsHaveNo(a, ':');
    IndexOfAfter(a, ':', b);
    assert text == a + [':'] + b;
    assert text[..|a|] == a;
    assert text[|a| + 1..] == b;
    NatToStringRoundTrip(t / 60);
    Pad2Value(t % 60);
  }

  /** `canIncrement`: nothing left to wait, which after the clamp means exactly zero. */
  predicate CanIncrement(remainingMs: nat) {
    remainingMs <= 0
  }

  lemma CanIncrementWhenDue(nextCheckIn: int, now: int)
    ensures CanIncrement(RemainingMs(nextCheckIn, now)) <==> now >= nextCheckIn
    ensures CanIncrement(RemainingMs(nextCheckIn, now)) <==> RemainingMs(nextCheckIn, now) == 0
  {
  }

  /** `clubMembers.find(m => m.userId === userId)`: the first member with that id. */
  function FindMember(members: seq<Member>, userId: string): (r: Option<nat>)
    ensures r.Some? ==>
      r.value < |members| && members[r.value].userId == userId &&
      forall j :: 0 <= j < r.value ==> members[j].userId != userId
    ensures r.None? ==> forall j :: 0 <= j < |members| ==> members[j].userId != userId
    decreases |members|
  {
    if members == [] then None
    else if members[0].userId == userId then Some(0)
    else match FindMember(members[1..], userId)
      case Some(k) => Some(k + 1)
      case None => None
  }

  /** `(id && members[id]) || []`: the route club's loaded members, or none. */
  function ClubMembers(members: map<string, seq<Member>>, id: Option<string>): (r: seq<Member>)
    ensures Truthy(id) && id.value in members ==> r == members[id.value]
    ensures !(Truthy(id) && id.value in members) ==> r == []
  {
    if Truthy(id) && id.value in members then members[id.value] else []
  }

  /** `myStats?.score || 0`: without a signed-in user nobody matches. */
  function MyScore(members: seq<Member>, currentUser: Option<User>): (score: int)
    ensures currentUser.None? ==> score == 0
    ensures currentUser.Some? && (forall j :: 0 <= j < |members| ==> members[j].userId != currentUser.value.id) ==> score == 0
    ensures forall i ::
      (0 <= i < |members| && currentUser.Some? && members[i].userId == currentUser.value.id &&
       (forall j :: 0 <= j < i ==> members[j].userId != currentUser.value.id))
      ==> score == members[i].score
  {
    if currentUser.None? then 0
    else match FindMember(members, currentUser.value.id)
      case Some(k) => members[k].score
      case None => 0
  }

  /** The page's `myScore` in a store state: the current user's score among the route club's members. */
  function PageScore(s: State, id: Option<string>): int {
    MyScore(ClubMembers(s.members, id), s.currentUser)
  }

  /**
   * After a load of the route club whose leaderboard arrived, the page
   * lists exactly the members that load mapped, and shows the current
   * user's score among them.
   */
  lemma LoadShowsMembers(s: State, clubId: string, replies: ClubReplies, nowIso: string)
    requires Truthy(s.token) && clubId != "" && MembersArrive(replies)
    ensures ClubMembers(LoadClubData(s, clubId, replies, nowIso).members, Some(clubId)) == MembersOf(replies, clubId, nowIso)
    ensures PageScore(LoadClubData(s, clubId, replies, nowIso), Some(clubId)) == MyScore(MembersOf(replies, clubId, nowIso), s.currentUser)
  {
  }

  /** A load of another club leaves the page's members and score as they were. */
  lemma OtherLoadKeepsMembers(s: State, id: string, other: string, replies: ClubReplies, nowIso: string)
    requires other != id
    ensures ClubMembers(LoadClubData(s, other, replies, nowIso).members, Some(id)) == ClubMembers(s.members, Some(id))
    ensures PageScore(LoadClubData(s, other, replies, nowIso), Some(id)) == PageScore(s, Some(id))
  {
    var r := LoadClubData(s, other, replies, nowIso);
    assert id in r.members <==> id in r.members - {other};
    assert id in s.members <==> id in s.members - {other};
    if id in s.members {
      assert (r.members - {other})[id] == (s.members - {other})[id];
    }
  }

  /** The page's own state: the countdown and the two animation flags. */
  class ClubPage {
    var remainingMs: nat
    var animateButton: bool
    var showParticles: bool

    constructor()
      ensures remainingMs == 0 && !animateButton && !showParticles
    {
      remainingMs := 0;
      animateButton := false;
      showParticles := false;
    }

    /** One countdown tick; a missing or zero `nextCheckIn` stops the countdown where it is. */
    method Tick(nextCheckIn: Option<int>, now: int)
      modifies this
      ensures nextCheckIn.Some? && nextCheckIn.value != 0 ==> remainingMs == RemainingMs(nextCheckIn.value, now)
      ensures nextCheckIn.None? || nextCheckIn.value == 0 ==> remainingMs == old(remainingMs)
      ensures animateButton == old(animateButton) && showParticles == old(showParticles)
    {
      if nextCheckIn.None? || nextCheckIn.value == 0 {
        return;
      }
      remainingMs := RemainingMs(nextCheckIn.value, now);
    }

    /**
     * `handleIncrement`: calls `incrementScore` only with a club id while
     * the countdown is over, and otherwise changes nothing.
     */
    method HandleIncrement(id: Option<string>, store: AppStore, ack: Ack, data: ClubReplies,
                           clubs: Reply<seq<WireClub>>, stats: Reply<UserStats>, nowIso: string)
      modifies this, store
      ensures !(Truthy(id) && CanIncrement(old(remainingMs))) ==>
        store.Snapshot() == old(store.Snapshot()) &&
        animateButton == old(animateButton) && showParticles == old(showParticles)
      ensures Truthy(id) && CanIncrement(old(remainingMs)) ==>
        store.Snapshot() == IncrementScore(old(store.Snapshot()), id.value, ack, data, clubs, stats, nowIso).0 &&
        animateButton && showParticles
      ensures remainingMs == old(remainingMs)
    {
      if !Truthy(id) || !CanIncrement(remainingMs) {
        return;
      }
      animateButton := true;
      showParticles := true;
      var success := store.IncrementScore(id.value, ack, data, clubs, stats, nowIso);
    }

    /** The two `setTimeout` callbacks, taken as one event. */
    method AnimationsEnd()
      modifies this
      ensures !animateButton && !showParticles && remainingMs == old(remainingMs)
    {
      animateButton := false;
      showParticles := false;
    }
  }

  /** One poll of the page: reload the club's data when the route has an id. */
  method Poll(id: Option<string>, store: AppStore, data: ClubReplies, nowIso: string)
    modifies store
    ensures Truthy(id) ==> store.Snapshot() == LoadClubData(old(store.Snapshot()), id.value, data, nowIso)
    ensures !Truthy(id) ==> store.Snapshot() == old(store.Snapshot())
  {
    if Truthy(id) {
      store.LoadClubData(id.value, data, nowIso);
    }
  }
}
