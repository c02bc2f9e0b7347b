/**
 * The remote gateway of api.ts: how `apiFetch` assembles a request, how it
 * classifies a response, and the request every endpoint helper builds.
 * The transport itself (`fetch`, `res.text()`, `res.json()`) is not part of
 * the model: a response is an input record, a request an output record.
 */
module Api {
  import opened Wrappers
  import opened Text
  import opened Types

  const DefaultBaseUrl := "http://192.168.1.12:8080"

  /** JavaScript truthiness of an optional string: present and non-empty. */
  predicate Truthy(s: Option<string>) {
    s.Some? && s.value != ""
  }

  /** `VITE_API_BASE_URL || 'http://192.168.1.12:8080'`. */
  function BaseUrl(env: Option<string>): (r: string)
    ensures Truthy(env) ==> r == env.value
    ensures !Truthy(env) ==> r == DefaultBaseUrl
  {
    if Truthy(env) then env.value else DefaultBaseUrl
  }

  /**
   * What a failed call rejects with: `ApiError(message, status)` for a
   * non-2xx response, or any other error (network failure, a JSON syntax
   * error, a TypeError in a caller) with its message.
   */
  datatype Failure = ApiError(message: string, status: int) | ClientError(message: string)

  /**
   * A decoded response body as a caller sees it: JSON `null`, a value of
   * another shape than the caller expects (the `{}` that `apiFetch` returns
   * for an empty body is one), or a value of the expected shape.
   */
  datatype Payload<T> = Null | Other | Data(value: T)

  /** How a helper's promise settles: it rejects with a failure, or resolves to a payload. */
  datatype Reply<T> = Failed(failure: Failure) | Got(payload: Payload<T>)

  datatype Method = GET | POST | PUT | DELETE

  type Headers = seq<(string, string)>

  /** The `RequestInit` a helper passes; `headers` is `None` when the key is absent. */
  datatype Options = Options(verb: Method, body: Option<Json>, headers: Option<Headers>)

  /** One `apiFetch(path, options, token)` call. */
  datatype Request = Request(path: string, options: Options, token: Option<string>)

  /** What `apiFetch` hands to `fetch`. */
  datatype FetchInit = FetchInit(url: string, verb: Method, headers: Headers, body: Option<Json>)

  /** The value of the first header called `name`. */
  function Header(hs: Headers, name: string): Option<string>
    decreases |hs|
  {
    if hs == [] then None
    else if hs[0].0 == name then Some(hs[0].1)
    else Header(hs[1..], name)
  }

  /** The bearer credential of section 2.1 of RFC 6750. */
  function BearerHeader(token: string): (string, string) {
    ("Authorization", "Bearer " + token)
  }

  /**
   * The URL and fetch options `apiFetch` builds, for the build-time
   * variable `env` that picks the base URL: the merged header object comes
   * first and `...options` is spread after it, so a caller-supplied
   * `headers` replaces the merged object as a whole.
   */
  function Prepare(env: Option<string>, r: Request): (init: FetchInit)
    ensures init.url == BaseUrl(env) + r.path
    ensures init.verb == r.options.verb && init.body == r.options.body
    ensures r.options.headers.Some? ==> init.headers == r.options.headers.value
    ensures r.options.headers.None? ==> Header(init.headers, "Content-Type") == Some("application/json")
    ensures Header(init.headers, "Authorization") ==
      if r.options.headers.Some? then Header(r.options.headers.value, "Authorization")
      else if Truthy(r.token) then Some("Bearer " + r.token.value)
      else None
  {
    var merged := [("Content-Type", "application/json")]
      + (if Truthy(r.token) then [BearerHeader(r.token.value)] else [])
      + r.options.headers.GetOr([]);
    FetchInit(
      BaseUrl(env) + r.path,
      r.options.verb,
      if r.options.headers.Some? then r.options.headers.value else merged,
      r.options.body)
  }

  /** The parts of a `Response` that `apiFetch` reads. */
  datatype HttpResponse = HttpResponse(status: int, body: string, contentLength: Option<string>)

  /** `res.ok`: the status is in the range 200 to 299. */
  predicate IsOk(status: int) {
    200 <= status <= 299
  }

  /** How `apiFetch` settles: it rejects, resolves to `{}`, or parses the body as JSON. */
  datatype Outcome = Rejected(error: Failure) | EmptyObject | ParseJson(text: string)

  function Classify(res: HttpResponse): (o: Outcome)
    ensures o.Rejected? <==> !IsOk(res.status)
    ensures o.Rejected? ==> o.error.ApiError? && o.error.status == res.status
    ensures o.Rejected? && res.body != "" ==> o.error.message == res.body
    ensures o.Rejected? && res.body == "" ==> o.error.message == "Request failed"
    ensures o.EmptyObject? <==> IsOk(res.status) && (res.status == 204 || res.contentLength == Some("0"))
    ensures o.ParseJson? ==> o.text == res.body
  {
    if !IsOk(res.status) then
      Rejected(ApiError(if res.body != "" then res.body else "Request failed", res.status))
    else if res.contentLength == Some("0") || res.status == 204 then
      EmptyObject
    else
      ParseJson(res.body)
  }

  // ---- Routes ----

  /** The paths the helpers below build, with the values they carry. */
  datatype Route =
    | Login
    | Signup
    | Avatar
    | ClubList
    | ClubItem(id: string)
    | Join(code: string)
    | Members(id: string)
    | Leaderboard(id: string, limit: nat)
    | Score(id: string)
    | StatsMe(id: string)
    | Messages(id: string)
    | MessagePage(id: string, limit: nat, offset: nat)

  /** A club id that can stand as one path segment under `/clubs/`. */
  predicate ClubIdOk(id: string) {
    id != "" && '/' !in id && id != "join"
  }

  /** Reads a path back into the route it names. */
  function ParsePath(p: string): Option<Route> {
    if p == "/login" then Some(Login)
    else if p == "/signup" then Some(Signup)
    else if p == "/users/avatar" then Some(Avatar)
    else if p == "/clubs" then Some(ClubList)
    else match StripPrefix("/clubs/", p)
      case Some(rest) => ParseClubRoute(rest)
      case None => None
  }

  function ParseClubRoute(rest: string): Option<Route> {
    match IndexOf(rest, '/')
    case None => if rest != "" then Some(ClubItem(rest)) else None
    case Some(k) =>
      var id := rest[..k];
      var tail := rest[k + 1..];
      if id == "join" then Some(Join(tail))
      else if id == "" then None
      else if tail == "members" then Some(Members(id))
      else if tail == "leaderboard/score" then Some(Score(id))
      else if tail == "stats/me" then Some(StatsMe(id))
      else if tail == "messages" then Some(Messages(id))
      else match StripPrefix("leaderboard?limit=", tail)
        case Some(q) => (match ParseNat(q) case Some(l) => Some(Leaderboard(id, l)) case None => None)
        case None => match StripPrefix("messages?limit=", tail)
          case Some(q) => ParsePageQuery(id, q)
          case None => None
  }

  function ParsePageQuery(id: string, q: string): Option<Route> {
    match IndexOf(q, '&')
    case None => None
    case Some(k) =>
      match (ParseNat(q[..k]), StripPrefix("offset=", q[k + 1..]))
      case (Some(l), Some(o)) => (match ParseNat(o) case Some(off) => Some(MessagePage(id, l, off)) case None => None)
      case _ => None
  }

  /** `/clubs/${id}/${tail}`. */
  function ClubPath(id: string, tail: string): string {
    "/clubs/" + id + "/" + tail
  }

  /** The club part of every `/clubs/<id>/<tail>` path parses back. */
  lemma ClubRouteSplit(id: string, tail: string)
    requires ClubIdOk(id)
    ensures ParsePath("/clubs/" + id + "/" + tail) == ParseClubRoute(id + "/" + tail)
    ensures IndexOf(id + "/" + tail, '/') == Some(|id|)
  {
    var p := "/clubs/" + id + "/" + tail;
    assert p[1] == 'c' && p[6] == '/';
    assert p == "/clubs/" + (id + "/" + tail);
    StripPrefixConcat("/clubs/", id + "/" + tail);
    IndexOfAfter(id, '/', tail);
  }

  lemma ClubSubRoute(id: string, tail: string)
    ensures ClubIdOk(id) ==>
      ParsePath(ClubPath(id, tail)) ==
      (if tail == "members" then Some(Members(id))
       else if tail == "leaderboard/score" then Some(Score(id))
       else if tail == "stats/me" then Some(StatsMe(id))
       else if tail == "messages" then Some(Messages(id))
       else match StripPrefix("leaderboard?limit=", tail)
         case Some(q) => (match ParseNat(q) case Some(l) => Some(Leaderboard(id, l)) case None => None)
         case None => match StripPrefix("messages?limit=", tail)
           case Some(q) => ParsePageQuery(id, q)
           case None => None)
  {
    if ClubIdOk(id) {
      ClubRouteSplit(id, tail);
      var rest := id + "/" + tail;
      assert rest[..|id|] == id;
      assert rest[|id| + 1..] == tail;
    }
  }

  lemma ClubItemRoute(id: string)
    ensures ClubIdOk(id) ==> ParsePath("/clubs/" + id) == Some(ClubItem(id))
  {
    if ClubIdOk(id) {
      var path := "/clubs/" + id;
      assert path[1] == 'c';
      StripPrefixConcat("/clubs/", id);
    }
  }

  lemma LeaderboardRoute(id: string, limit: nat)
    ensures ClubIdOk(id) ==> ParsePath(ClubPath(id, "leaderboard?limit=" + NatToString(limit))) == Some(Leaderboard(id, limit))
  {
    var tail := "leaderboard?limit=" + NatToString(limit);
    ClubSubRoute(id, tail);
    StripPrefixConcat("leaderboard?limit=", NatToString(limit));
    NatToStringRoundTrip(limit);
  }

  lemma MessagePageRoute(id: string, limit: nat, offset: nat)
    ensures ClubIdOk(id) ==>
      ParsePath(ClubPath(id, "messages?limit=" + (NatToString(limit) + "&offset=" + NatToString(offset))))
        == Some(MessagePage(id, limit, offset))
  {
    var q := NatToString(limit) + "&offset=" + NatToString(offset);
    var tail := "messages?limit=" + q;
    ClubSubRoute(id, tail);
    assert tail[0] == 'm' && tail[1] == 'e' && tail[2] == 's';
    StripPrefixConcat("messages?limit=", q);
    PageQueryRoundTrip(id, limit, offset);
  }

  lemma PageQueryRoundTrip(id: string, limit: nat, offset: nat)
    ensures ParsePageQuery(id, NatToString(limit) + "&offset=" + NatToString(offset)) == Some(MessagePage(id, limit, offset))
  {
    var l := NatToString(limit);
    var o := NatToString(offset);
    var q := l + "&offset=" + o;
    DigitsHaveNo(l, '&');
    assert q == l + ['&'] + ("offset=" + o);
    IndexOfAfter(l, '&', "offset=" + o);
    assert q[..|l|] == l;
    assert q[|l| + 1..] == "offset=" + o;
    StripPrefixConcat("offset=", o);
    NatToStringRoundTrip(limit);
    NatToStringRoundTrip(offset);
  }

  // ---- Endpoint helpers ----

  function JsonBody(fields: seq<(string, Json)>): Option<Json> {
    Some(JObj(fields))
  }

  /** `description ?? null`. */
  function StrOrNull(s: Option<string>): Json {
    if s.Some? then JStr(s.value) else JNull
  }

  function LoginRequest(username: string, password: string): (r: Request)
    ensures ParsePath(r.path) == Some(Login)
    ensures r.options.verb == POST && r.token.None? && r.options.headers.None?
    ensures r.options.body == Some(JObj([("username", JStr(username)), ("password", JStr(password))]))
  {
    Request("/login", Options(POST, JsonBody([("username", JStr(username)), ("password", JStr(password))]), None), None)
  }

  function SignupRequest(username: string, password: string, avatarId: string := "default"): (r: Request)
    ensures ParsePath(r.path) == Some(Signup)
    ensures r.options.verb == POST && r.token.None? && r.options.headers.None?
    ensures r.options.body == Some(JObj([("username", JStr(username)), ("password", JStr(password)), ("avatar_id", JStr(avatarId))]))
  {
    var fields := [("username", JStr(username)), ("password", JStr(password)), ("avatar_id", JStr(avatarId))];
    Request("/signup", Options(POST, JsonBody(fields), None), None)
  }

  function UpdateAvatarRequest(token: string, avatarId: string): (r: Request)
    ensures ParsePath(r.path) == Some(Avatar)
    ensures r.options.verb == PUT && r.token == Some(token) && r.options.headers.None?
    ensures r.options.body == Some(JObj([("avatar_id", JStr(avatarId))]))
  {
    Request("/users/avatar", Options(PUT, JsonBody([("avatar_id", JStr(avatarId))]), None), Some(token))
  }

  function MyClubsRequest(token: string): (r: Request)
    ensures ParsePath(r.path) == Some(ClubList)
    ensures r.options.verb == GET && r.token == Some(token) && r.options.body.None? && r.options.headers.None?
  {
    Request("/clubs", Options(GET, None, None), Some(token))
  }

  /** The payload `createClubApi` and `updateClubApi` accept; absent keys are `None`. */
  datatype ClubPayload = ClubPayload(name: string, description: Option<string>, isPrivate: Option<bool>, action: Option<string>)

  function CreateClubRequest(token: string, p: ClubPayload): (r: Request)
    ensures ParsePath(r.path) == Some(ClubList)
    ensures r.options.verb == POST && r.token == Some(token) && r.options.headers.None?
    ensures r.options.body.Some? && r.options.body.value.JObj?
    ensures Field(r.options.body.value.fields, "name") == Some(JStr(p.name))
    ensures p.description.None? ==> Field(r.options.body.value.fields, "description") == Some(JNull)
    ensures p.description.Some? ==> Field(r.options.body.value.fields, "description") == Some(JStr(p.description.value))
    ensures p.isPrivate.None? ==> Field(r.options.body.value.fields, "is_private") == Some(JBool(false))
    ensures p.isPrivate.Some? ==> Field(r.options.body.value.fields, "is_private") == Some(JBool(p.isPrivate.value))
    ensures p.action.None? ==> Field(r.options.body.value.fields, "action") == Some(JStr("units"))
    ensures p.action.Some? ==> Field(r.options.body.value.fields, "action") == Some(JStr(p.action.value))
    ensures KeysOf(r.options.body.value.fields) == ["name", "description", "is_private", "action"]
  {
    var fields := [
      ("name", JStr(p.name)),
      ("description", StrOrNull(p.description)),
      ("is_private", JBool(p.isPrivate.GetOr(false))),
      ("action", JStr(p.action.GetOr("units")))];
    FieldAt(fields, 0, "name");
    FieldAt(fields, 1, "description");
    FieldAt(fields, 2, "is_private");
    FieldAt(fields, 3, "action");
    Request("/clubs", Options(POST, JsonBody(fields), None), Some(token))
  }

  function UpdateClubRequest(token: string, clubId: string, p: ClubPayload): (r: Request)
    ensures ClubIdOk(clubId) ==> ParsePath(r.path) == Some(ClubItem(clubId))
    ensures r.options.verb == PUT && r.token == Some(token) && r.options.headers.None?
    ensures r.options.body.Some? && r.options.body.value.JObj?
    ensures Field(r.options.body.value.fields, "name") == Some(JStr(p.name))
    ensures p.description.None? ==> Field(r.options.body.value.fields, "description") == Some(JNull)
    ensures p.description.Some? ==> Field(r.options.body.value.fields, "description") == Some(JStr(p.description.value))
    ensures p.isPrivate.None? ==> Field(r.options.body.value.fields, "is_private") == Some(JBool(false))
    ensures p.isPrivate.Some? ==> Field(r.options.body.value.fields, "is_private") == Some(JBool(p.isPrivate.value))
    ensures p.action.None? ==> Field(r.options.body.value.fields, "action").None?
    ensures p.action.Some? ==> Field(r.options.body.value.fields, "action") == Some(JStr(p.action.value))
    ensures KeysOf(r.options.body.value.fields) ==
      ["name", "description", "is_private"] + (if p.action.Some? then ["action"] else [])
  {
    var path := "/clubs/" + clubId;
    ClubItemRoute(clubId);
    // `JSON.stringify` leaves out a key whose value is undefined.
    var fields := [
      ("name", JStr(p.name)),
      ("description", StrOrNull(p.description)),
      ("is_private", JBool(p.isPrivate.GetOr(false)))]
      + (if p.action.Some? then [("action", JStr(p.action.value))] else []);
    FieldAt(fields, 0, "name");
    FieldAt(fields, 1, "description");
    FieldAt(fields, 2, "is_private");
    var r := Request(path, Options(PUT, JsonBody(fields), None), Some(token));
    if p.action.Some? then (FieldAt(fields, 3, "action"); r) else (FieldMissing(fields, "action"); r)
  }

  function AddMemberRequest(token: string, clubCode: string): (r: Request)
    ensures ParsePath(r.path) == Some(Join(clubCode))
    ensures r.options.verb == POST && r.token == Some(token) && r.options.body.None? && r.options.headers.None?
  {
    var path := "/clubs/join/" + clubCode;
    var rest := "join/" + clubCode;
    assert path[1] == 'c' && path == "/clubs/" + rest;
    StripPrefixConcat("/clubs/", rest);
    IndexOfAfter("join", '/', clubCode);
    assert rest == "join" + ['/'] + clubCode;
    assert rest[..4] == "join" && rest[5..] == clubCode;
    Request(path, Options(POST, None, None), Some(token))
  }

  function LeaveClubRequest(token: string, clubId: string): (r: Request)
    ensures ClubIdOk(clubId) ==> ParsePath(r.path) == Some(Members(clubId))
    ensures r.options.verb == DELETE && r.token == Some(token) && r.options.body.None? && r.options.headers.None?
  {
    ClubSubRoute(clubId, "members");
    Request(ClubPath(clubId, "members"), Options(DELETE, None, None), Some(token))
  }

  function LeaderboardRequest(token: string, clubId: string, limit: nat := 50): (r: Request)
    ensures r.options.verb == GET && r.token == Some(token) && r.options.body.None? && r.options.headers.None?
  {
    var tail := "leaderboard?limit=" + NatToString(limit);
    Request(ClubPath(clubId, tail), Options(GET, None, None), Some(token))
  }

  function ScoreRequest(token: string, clubId: string): (r: Request)
    ensures ClubIdOk(clubId) ==> ParsePath(r.path) == Some(Score(clubId))
    ensures r.options.verb == POST && r.token == Some(token) && r.options.body.None? && r.options.headers.None?
  {
    ClubSubRoute(clubId, "leaderboard/score");
    Request(ClubPath(clubId, "leaderboard/score"), Options(POST, None, None), Some(token))
  }

  function StatsRequest(token: string, clubId: string): (r: Request)
    ensures ClubIdOk(clubId) ==> ParsePath(r.path) == Some(StatsMe(clubId))
    ensures r.options.verb == GET && r.token == Some(token) && r.options.body.None? && r.options.headers.None?
  {
    ClubSubRoute(clubId, "stats/me");
    Request(ClubPath(clubId, "stats/me"), Options(GET, None, None), Some(token))
  }

  function MessagesRequest(token: string, clubId: string, limit: nat := 50, offset: nat := 0): (r: Request)
    ensures r.options.verb == GET && r.token == Some(token) && r.options.body.None? && r.options.headers.None?
  {
    var q := NatToString(limit) + "&offset=" + NatToString(offset);
    var tail := "messages?limit=" + q;
    Request(ClubPath(clubId, tail), Options(GET, None, None), Some(token))
  }

  /** `sendMessageApi` sends only the text: no reply target reaches the server. */
  function SendMessageRequest(token: string, clubId: string, text: string): (r: Request)
    ensures ClubIdOk(clubId) ==> ParsePath(r.path) == Some(Messages(clubId))
    ensures r.options.verb == POST && r.token == Some(token) && r.options.headers.None?
    ensures r.options.body == Some(JObj([("message", JStr(text))]))
  {
    ClubSubRoute(clubId, "messages");
    Request(ClubPath(clubId, "messages"), Options(POST, JsonBody([("message", JStr(text))]), None), Some(token))
  }

  /**
   * The leaderboard request's path names the club and the limit. (Kept
   * apart from `LeaderboardRequest` so that the store's proofs, which
   * only compare requests, do not unfold the route parser.)
   */
  lemma LeaderboardRequestPath(token: string, clubId: string, limit: nat)
    ensures ClubIdOk(clubId) ==> ParsePath(LeaderboardRequest(token, clubId, limit).path) == Some(Leaderboard(clubId, limit))
  {
    LeaderboardRoute(clubId, limit);
  }

  /** The messages request's path names the club, the limit and the offset. */
  lemma MessagesRequestPath(token: string, clubId: string, limit: nat, offset: nat)
    ensures ClubIdOk(clubId) ==> ParsePath(MessagesRequest(token, clubId, limit, offset).path) == Some(MessagePage(clubId, limit, offset))
  {
    MessagePageRoute(clubId, limit, offset);
  }

  /** The default page of `getClubMessagesApi` is the newest 50 messages, and the leaderboard's default limit is 50. */
  lemma MessagesRequestDefaults(token: string, clubId: string)
    requires ClubIdOk(clubId)
    ensures ParsePath(MessagesRequest(token, clubId).path) == Some(MessagePage(clubId, 50, 0))
    ensures ParsePath(LeaderboardRequest(token, clubId).path) == Some(Leaderboard(clubId, 50))
  {
    MessagesRequestPath(token, clubId, 50, 0);
    LeaderboardRequestPath(token, clubId, 50);
  }

  /** Different pages of one club's messages are different requests. */
  lemma MessagesRequestInjective(token: string, clubId: string, l1: nat, o1: nat, l2: nat, o2: nat)
    requires ClubIdOk(clubId)
    ensures MessagesRequest(token, clubId, l1, o1) == MessagesRequest(token, clubId, l2, o2) ==> l1 == l2 && o1 == o2
  {
    MessagesRequestPath(token, clubId, l1, o1);
    MessagesRequestPath(token, clubId, l2, o2);
  }
}
