/**
 * The records the client works with: the domain shapes of types.ts, the
 * wire shapes of api.ts, and JSON values for request bodies.
 */
module Types {
  import opened Wrappers

  /** A JSON value as built for a request body (`JSON.stringify`'s input). */
  datatype Json =
    | JNull
    | JBool(b: bool)
    | JNum(n: int)
    | JStr(s: string)
    | JObj(fields: seq<(string, Json)>)

  /** The value stored under `key` in an object's field list. */
  function Field(fields: seq<(string, Json)>, key: string): Option<Json>
    decreases |fields|
  {
    if fields == [] then None
    else if fields[0].0 == key then Some(fields[0].1)
    else Field(fields[1..], key)
  }

  /** The keys of an object's field list, in order (the order `JSON.stringify` writes them in). */
  function KeysOf(fields: seq<(string, Json)>): (ks: seq<string>)
    ensures |ks| == |fields| && forall i :: 0 <= i < |fields| ==> ks[i] == fields[i].0
  {
    seq(|fields|, i requires 0 <= i < |fields| => fields[i].0)
  }

  /** `Field` finds the first entry with the key. */
  lemma {:induction false} FieldAt(fields: seq<(string, Json)>, i: nat, key: string)
    requires i < |fields| && fields[i].0 == key
    requires forall j :: 0 <= j < i ==> fields[j].0 != key
    ensures Field(fields, key) == Some(fields[i].1)
    decreases i
  {
    if i > 0 {
      FieldAt(fields[1..], i - 1, key);
    }
  }

  lemma {:induction false} FieldMissing(fields: seq<(string, Json)>, key: string)
    requires forall j :: 0 <= j < |fields| ==> fields[j].0 != key
    ensures Field(fields, key).None?
    decreases |fields|
  {
    if fields != [] {
      FieldMissing(fields[1..], key);
    }
  }

  // ---- Domain records (types.ts) ----

  datatype User = User(id: string, username: string, avatarId: string, color: string)

  /**
   * A club as refreshClubs builds it. `nextCheckIn` is the next allowed
   * check-in in integer milliseconds since the epoch, as a number that the
   * server sends (absent if the server sent none). `Some(0)` is that
   * number 0, which the countdown's `!club?.nextCheckIn` treats like an
   * absent value.
   */
  datatype Club = Club(
    id: string,
    name: string,
    description: string,
    memberCount: int,
    activeText: string,
    lastActive: Option<string>,
    nextCheckIn: Option<int>,
    actionName: string,
    code: string,
    currentRank: int,
    createdBy: string,
    isPrivate: bool)

  datatype Member = Member(
    userId: string,
    username: string,
    avatarInitials: string,
    avatarId: Option<string>,
    clubId: string,
    score: int,
    lastUpdate: string,
    streak: int,
    longestStreak: int)

  /** A chat message; `kind` is the source's `type` field ('user' or 'system'). */
  datatype Message = Message(
    id: string,
    userId: string,
    username: string,
    avatarId: Option<string>,
    text: string,
    timestamp: string,
    kind: string)

  /** A value in a graph point's `scores` object: a number or anything else. */
  datatype ScoreValue = Num(n: int) | NotNum

  /** One day of the stats graph; `scores` is a JSON object as its list of entries. */
  datatype GraphPoint = GraphPoint(day: string, scores: seq<(string, ScoreValue)>)

  datatype UserStats = UserStats(
    score: int,
    rank: int,
    currentStreak: int,
    longestStreak: int,
    graphData: Option<seq<GraphPoint>>)

  // ---- Wire records (api.ts) ----

  datatype WireUser = WireUser(id: int, username: string, avatarId: Option<string>)

  datatype WireClub = WireClub(
    id: int,
    name: string,
    description: Option<string>,
    isPrivate: bool,
    numberOfMembers: int,
    createdBy: int,
    code: string,
    currentRank: int,
    action: string,
    lastCheckedIn: Option<string>,
    nextCheckIn: Option<int>)

  datatype WireEntry = WireEntry(
    user: WireUser,
    score: int,
    currentStreak: int,
    longestStreak: int,
    lastCheckedIn: Option<string>)

  /** A message as the server sends it; it carries the server's numeric `id`. */
  datatype WireMessage = WireMessage(
    id: int,
    user: WireUser,
    message: string,
    timestamp: string,
    kind: string)

  datatype LoginResponse = LoginResponse(message: string, token: string, user: WireUser)
}
