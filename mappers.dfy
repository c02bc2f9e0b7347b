/**
 * The pure record mappings of store.tsx: server records become the
 * client's `Club`, `Member` and `Message` values, and a page of messages
 * becomes the oldest-first list the chat shows.
 */
module StoreMappers {
  import opened Wrappers
  import opened Text
  import opened Types

  /** JavaScript `a || b` on an optional string. */
  function OrElse(a: Option<string>, b: string): string {
    if a.Some? && a.value != "" then a.value else b
  }

  /** JavaScript `a || b` on a string. */
  function StrOr(a: string, b: string): string {
    if a != "" then a else b
  }

  /** The club `refreshClubs` builds from a server club. */
  function ToClub(c: WireClub): (r: Club)
    ensures ParseInt(r.id) == Some(c.id) && ParseInt(r.createdBy) == Some(c.createdBy)
    ensures r.name == c.name && r.code == c.code && r.isPrivate == c.isPrivate
    ensures r.memberCount == c.numberOfMembers && r.currentRank == c.currentRank
    ensures r.lastActive == c.lastCheckedIn && r.nextCheckIn == c.nextCheckIn
    ensures r.description == "" <==> c.description.None? || c.description.value == ""
    ensures r.description != "" ==> r.description == c.description.value
    ensures r.actionName == (if c.action == "" then "Points" else c.action)
    ensures r.activeText == "Active recently"
  {
    IntToStringRoundTrip(c.id);
    IntToStringRoundTrip(c.createdBy);
    Club(
      IntToString(c.id), c.name, OrElse(c.description, ""), c.numberOfMembers,
      "Active recently", c.lastCheckedIn, c.nextCheckIn, StrOr(c.action, "Points"),
      c.code, c.currentRank, IntToString(c.createdBy), c.isPrivate)
  }

  function MapClubs(cs: seq<WireClub>): (r: seq<Club>)
    ensures |r| == |cs| && forall i :: 0 <= i < |cs| ==> r[i] == ToClub(cs[i])
  {
    seq(|cs|, i requires 0 <= i < |cs| => ToClub(cs[i]))
  }

  /**
   * The member `loadClubData` builds from a leaderboard entry; `nowIso` is
   * the time `new Date().toISOString()` reads.
   */
  function ToMember(e: WireEntry, clubId: string, nowIso: string): (r: Member)
    ensures ParseInt(r.userId) == Some(e.user.id) && r.clubId == clubId
    ensures r.username == (if e.user.username == "" then "Unknown" else e.user.username)
    ensures e.user.username == "" ==> r.avatarInitials == "??"
    ensures e.user.username != "" ==> r.avatarInitials == ToUpper(Take(e.user.username, 2))
    ensures |r.avatarInitials| <= 2
    ensures r.avatarId == e.user.avatarId
    ensures r.score == e.score && r.streak == e.currentStreak && r.longestStreak == e.longestStreak
    ensures r.lastUpdate == OrElse(e.lastCheckedIn, nowIso)
  {
    IntToStringRoundTrip(e.user.id);
    Member(
      IntToString(e.user.id), StrOr(e.user.username, "Unknown"),
      ToUpper(Take(StrOr(e.user.username, "??"), 2)), e.user.avatarId, clubId,
      e.score, OrElse(e.lastCheckedIn, nowIso), e.currentStreak, e.longestStreak)
  }

  function MapMembers(es: seq<WireEntry>, clubId: string, nowIso: string): (r: seq<Member>)
    ensures |r| == |es| && forall i :: 0 <= i < |es| ==> r[i] == ToMember(es[i], clubId, nowIso)
  {
    seq(|es|, i requires 0 <= i < |es| => ToMember(es[i], clubId, nowIso))
  }

  /** A server message with the id it is shown under. */
  function MessageWithId(m: WireMessage, id: string): (r: Message)
    ensures r.id == id && ParseInt(r.userId) == Some(m.user.id)
    ensures r.username == m.user.username && r.avatarId == m.user.avatarId
    ensures r.text == m.message && r.timestamp == m.timestamp
    ensures r.kind == (if m.kind == "" then "user" else m.kind)
  {
    IntToStringRoundTrip(m.user.id);
    Message(id, IntToString(m.user.id), m.user.username, m.user.avatarId, m.message, m.timestamp, StrOr(m.kind, "user"))
  }

  /** `JSON`-style id of a message of the newest page: the server's id. */
  function LiveId(m: WireMessage): (id: string)
    ensures ParseInt(id) == Some(m.id)
  {
    IntToStringRoundTrip(m.id);
    IntToString(m.id)
  }

  /** `old-${offset}-${idx}-${timestamp}`: the id of the `idx`-th message of an older page. */
  function OlderId(offset: nat, idx: nat, timestamp: string): string {
    "old-" + NatToString(offset) + "-" + NatToString(idx) + "-" + timestamp
  }

  function Reverse<T>(s: seq<T>): (r: seq<T>)
    ensures |r| == |s| && forall i :: 0 <= i < |s| ==> r[i] == s[|s| - 1 - i]
  {
    seq(|s|, i requires 0 <= i < |s| => s[|s| - 1 - i])
  }

  /** The newest page as `loadClubData` stores it: mapped, then reversed. */
  function MapLive(page: seq<WireMessage>): (r: seq<Message>)
    ensures |r| == |page|
    ensures forall k :: 0 <= k < |page| ==> r[k] == MessageWithId(page[|page| - 1 - k], LiveId(page[|page| - 1 - k]))
  {
    Reverse(seq(|page|, i requires 0 <= i < |page| => MessageWithId(page[i], LiveId(page[i]))))
  }

  /** An older page as `loadMoreMessages` maps it, with ids built from the old offset. */
  function MapOlder(page: seq<WireMessage>, offset: nat): (r: seq<Message>)
    ensures |r| == |page|
    ensures forall k :: 0 <= k < |page| ==>
      r[k] == MessageWithId(page[|page| - 1 - k], OlderId(offset, |page| - 1 - k, page[|page| - 1 - k].timestamp))
  {
    Reverse(seq(|page|, i requires 0 <= i < |page| => MessageWithId(page[i], OlderId(offset, i, page[i].timestamp))))
  }

  /** Reversing twice gives the list back: the stored order is the page order turned around. */
  lemma ReverseReverse<T>(s: seq<T>)
    ensures Reverse(Reverse(s)) == s
  {
  }

  /**
   * Prepending an older page keeps the history already shown as a suffix,
   * and the prepended part is the page in reverse order.
   */
  lemma PrependOlder(page: seq<WireMessage>, offset: nat, history: seq<Message>)
    ensures var h := MapOlder(page, offset) + history;
      |h| == |page| + |history| && h[|page|..] == history &&
      forall k :: 0 <= k < |page| ==> h[k].text == page[|page| - 1 - k].message
  {
    var h := MapOlder(page, offset) + history;
    assert h[|page|..] == history;
  }

  /** `old-` ids name their offset, index and timestamp unambiguously. */
  lemma OlderIdInjective(o1: nat, i1: nat, t1: string, o2: nat, i2: nat, t2: string)
    ensures OlderId(o1, i1, t1) == OlderId(o2, i2, t2) ==> o1 == o2 && i1 == i2 && t1 == t2
  {
    if OlderId(o1, i1, t1) == OlderId(o2, i2, t2) {
      var a1, b1 := NatToString(o1), NatToString(i1);
      var a2, b2 := NatToString(o2), NatToString(i2);
      var r1 := a1 + "-" + (b1 + "-" + t1);
      var r2 := a2 + "-" + (b2 + "-" + t2);
      OlderIdShape(o1, i1, t1);
      OlderIdShape(o2, i2, t2);
      StripPrefixConcat("old-", r1);
      StripPrefixConcat("old-", r2);
      DashSplitInjective(a1, b1 + "-" + t1, a2, b2 + "-" + t2);
      NatToStringInjective(o1, o2);
      DashSplitInjective(b1, t1, b2, t2);
      NatToStringInjective(i1, i2);
    }
  }

  lemma OlderIdShape(o: nat, i: nat, t: string)
    ensures OlderId(o, i, t) == "old-" + (NatToString(o) + "-" + (NatToString(i) + "-" + t))
  {
  }

  /** Two strings of digits followed by `-` are equal only if the digits and the rests are. */
  lemma DashSplitInjective(d1: string, r1: string, d2: string, r2: string)
    requires AllDigits(d1) && AllDigits(d2)
    ensures d1 + "-" + r1 == d2 + "-" + r2 ==> d1 == d2 && r1 == r2
  {
    if d1 + "-" + r1 == d2 + "-" + r2 {
      SplitAtDash(d1, r1);
      SplitAtDash(d2, r2);
    }
  }

  /** A string of digits followed by `-` splits back at that dash. */
  lemma SplitAtDash(digits: string, rest: string)
    requires AllDigits(digits)
    ensures var s := digits + "-" + rest;
      IndexOf(s, '-') == Some(|digits|) && s[..|digits|] == digits && s[|digits| + 1..] == rest
  {
    DigitsHaveNo(digits, '-');
    IndexOfAfter(digits, '-', rest);
    var s := digits + "-" + rest;
    assert s == digits + ['-'] + rest;
    assert s[..|digits|] == digits;
    assert s[|digits| + 1..] == rest;
  }

  /** An `old-` id never clashes with the id of a message of the newest page. */
  lemma OlderIdNotLive(offset: nat, idx: nat, timestamp: string, serverId: int)
    ensures OlderId(offset, idx, timestamp) != IntToString(serverId)
  {
    var s := IntToString(serverId);
    if serverId >= 0 {
      assert IsDigit(s[0]);
    }
    assert OlderId(offset, idx, timestamp)[0] == 'o';
  }

  /** Within one older page the ids are pairwise distinct. */
  lemma OlderIdsDistinct(page: seq<WireMessage>, offset: nat)
    ensures forall j, k :: 0 <= j < k < |page| ==> MapOlder(page, offset)[j].id != MapOlder(page, offset)[k].id
  {
    var r := MapOlder(page, offset);
    forall j, k | 0 <= j < k < |page|
      ensures r[j].id != r[k].id
    {
      var n := |page|;
      OlderIdInjective(offset, n - 1 - j, page[n - 1 - j].timestamp, offset, n - 1 - k, page[n - 1 - k].timestamp);
    }
  }

  /** Pages fetched at different offsets never share an id. */
  lemma OlderIdsAcrossPages(p1: seq<WireMessage>, o1: nat, p2: seq<WireMessage>, o2: nat)
    requires o1 != o2
    ensures forall j, k :: 0 <= j < |p1| && 0 <= k < |p2| ==> MapOlder(p1, o1)[j].id != MapOlder(p2, o2)[k].id
  {
    forall j, k | 0 <= j < |p1| && 0 <= k < |p2|
      ensures MapOlder(p1, o1)[j].id != MapOlder(p2, o2)[k].id
    {
      var n1, n2 := |p1|, |p2|;
      OlderIdInjective(o1, n1 - 1 - j, p1[n1 - 1 - j].timestamp, o2, n2 - 1 - k, p2[n2 - 1 - k].timestamp);
    }
  }
}
