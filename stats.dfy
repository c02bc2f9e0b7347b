/**
 * The chart model of components/Stats.tsx: the `useMemo` that turns
 * `graph_data` into chart rows, the list of players and their colours,
 * the `hasSinglePoint` test, and the legend selection of the component.
 *
 * A point's `scores` object is the list of its entries in the order
 * `Object.keys` returns them.
 */
module StatsChart {
  import opened Wrappers
  import opened Text
  import opened Types
  import opened Api

  const YouColor := "#22c55e"
  const OtherColors: seq<string> := ["#60a5fa", "#f59e0b", "#a78bfa", "#f87171"]

  /** A chart row value: the row's `day`, or a player's number. */
  datatype Cell = DayCell(day: string) | ScoreCell(n: int)

  type Row = map<string, Cell>

  predicate NoDup<T(==)>(s: seq<T>) {
    forall i, j :: 0 <= i < j < |s| ==> s[i] != s[j]
  }

  // ---- Players in first-seen order ----

  function Keys(point: GraphPoint): (ks: seq<string>)
    ensures |ks| == |point.scores| && forall i :: 0 <= i < |ks| ==> ks[i] == point.scores[i].0
  {
    seq(|point.scores|, i requires 0 <= i < |point.scores| => point.scores[i].0)
  }

  /** Every key of every point, in visiting order, repeats included. */
  function AllKeys(points: seq<GraphPoint>): seq<string>
    decreases |points|
  {
    if points == [] then [] else AllKeys(points[..|points| - 1]) + Keys(points[|points| - 1])
  }

  /** What `Array.from` gives for a `Set` filled from `s`: each value once, at its first appearance. */
  function FirstSeen(s: seq<string>): seq<string>
    decreases |s|
  {
    if s == [] then []
    else
      var p := FirstSeen(s[..|s| - 1]);
      if s[|s| - 1] in p then p else p + [s[|s| - 1]]
  }

  lemma FirstSeenSnoc(s: seq<string>, x: string)
    ensures FirstSeen(s + [x]) == if x in FirstSeen(s) then FirstSeen(s) else FirstSeen(s) + [x]
  {
    assert (s + [x])[..|s|] == s;
  }

  /** The players are exactly the keys seen ... */
  lemma {:induction false} FirstSeenSameElements(s: seq<string>)
    ensures forall x :: x in FirstSeen(s) <==> x in s
    decreases |s|
  {
    if s != [] {
      var t := s[..|s| - 1];
      FirstSeenSameElements(t);
      assert s == t + [s[|s| - 1]];
    }
  }

  /** ... each exactly once ... */
  lemma {:induction false} FirstSeenNoDup(s: seq<string>)
    ensures NoDup(FirstSeen(s))
    decreases |s|
  {
    if s != [] {
      FirstSeenNoDup(s[..|s| - 1]);
    }
  }

  /** The position of the first occurrence of `x`. */
  function FirstIndex(s: seq<string>, x: string): (k: nat)
    requires x in s
    ensures k < |s| && s[k] == x && x !in s[..k]
  {
    if s[0] == x then 0
    else
      var k := FirstIndex(s[1..], x);
      assert s[1..][..k] == s[1..k + 1];
      1 + k
  }

  lemma FirstIndexExtend(s: seq<string>, x: string, y: string)
    requires y in s
    ensures FirstIndex(s + [x], y) == FirstIndex(s, y)
  {
    var k := FirstIndex(s, y);
    var k2 := FirstIndex(s + [x], y);
    assert (s + [x])[..k + 1] == s[..k + 1];
  }

  /** ... in the order of their first appearance. */
  lemma {:induction false} FirstSeenOrder(s: seq<string>)
    ensures forall i, j :: 0 <= i < j < |FirstSeen(s)| ==>
      FirstSeen(s)[i] in s && FirstSeen(s)[j] in s && FirstIndex(s, FirstSeen(s)[i]) < FirstIndex(s, FirstSeen(s)[j])
    decreases |s|
  {
    if s != [] {
      var t := s[..|s| - 1];
      var x := s[|s| - 1];
      assert s == t + [x];
      FirstSeenOrder(t);
      FirstSeenSameElements(t);
      FirstSeenSnoc(t, x);
      var p := FirstSeen(t);
      var r := FirstSeen(s);
      assert r == if x in p then p else p + [x];
      forall y | y in t
        ensures FirstIndex(s, y) == FirstIndex(t, y)
      {
        FirstIndexExtend(t, x, y);
      }
      forall i, j | 0 <= i < j < |FirstSeen(s)|
        ensures FirstSeen(s)[i] in s && FirstSeen(s)[j] in s && FirstIndex(s, FirstSeen(s)[i]) < FirstIndex(s, FirstSeen(s)[j])
      {
        assert r[i] == p[i] && p[i] in t;
        if j < |p| {
          assert r[j] == p[j] && p[j] in t;
        } else {
          assert r[j] == x && x !in t;
          assert FirstIndex(s, x) == |t|;
        }
      }
    } else {
      assert |FirstSeen(s)| == 0;
    }
  }

  /** Fills the player set the way the first `forEach` does, one key at a time. */
  method CollectPlayers(points: seq<GraphPoint>) returns (players: seq<string>)
    ensures players == FirstSeen(AllKeys(points))
  {
    players := [];
    var i := 0;
    while i < |points|
      invariant 0 <= i <= |points|
      invariant players == FirstSeen(AllKeys(points[..i]))
    {
      var keys := Keys(points[i]);
      var j := 0;
      assert AllKeys(points[..i]) + keys[..0] == AllKeys(points[..i]);
      while j < |keys|
        invariant 0 <= j <= |keys|
        invariant players == FirstSeen(AllKeys(points[..i]) + keys[..j])
      {
        assert keys[..j + 1] == keys[..j] + [keys[j]];
        FirstSeenSnoc(AllKeys(points[..i]) + keys[..j], keys[j]);
        assert AllKeys(points[..i]) + keys[..j + 1] == AllKeys(points[..i]) + keys[..j] + [keys[j]];
        if keys[j] !in players {
          players := players + [keys[j]];
        }
        j := j + 1;
      }
      assert keys[..j] == keys;
      assert points[..i + 1][..i] == points[..i];
      i := i + 1;
    }
    assert points[..i] == points;
  }

  // ---- Rows ----

  /** `typeof scores[player] === 'number' ? scores[player] : 0`, reading the first entry with the key. */
  function ScoreOf(scores: seq<(string, ScoreValue)>, player: string): int
    decreases |scores|
  {
    if scores == [] then 0
    else if scores[0].0 == player then (if scores[0].1.Num? then scores[0].1.n else 0)
    else ScoreOf(scores[1..], player)
  }

  /**
   * A normalised row: its keys are `day` and the players; every player
   * holds its number, zero when missing; `day` holds the point's day
   * unless a player of that name overwrote it.
   */
  predicate RowOk(row: Row, point: GraphPoint, players: seq<string>) {
    row.Keys == {"day"} + (set p | p in players)
    && (forall p :: p in players ==> p in row && row[p] == ScoreCell(ScoreOf(point.scores, p)))
    && ("day" !in players ==> row["day"] == DayCell(point.day))
  }

  method NormaliseRow(point: GraphPoint, players: seq<string>) returns (row: Row)
    ensures RowOk(row, point, players)
  {
    row := map["day" := DayCell(point.day)];
    var j := 0;
    while j < |players|
      invariant 0 <= j <= |players|
      invariant row.Keys == {"day"} + (set p | p in players[..j])
      invariant forall p :: p in players[..j] ==> p in row && row[p] == ScoreCell(ScoreOf(point.scores, p))
      invariant "day" !in players[..j] ==> row["day"] == DayCell(point.day)
    {
      assert players[..j + 1] == players[..j] + [players[j]];
      row := row[players[j] := ScoreCell(ScoreOf(point.scores, players[j]))];
      j := j + 1;
    }
    assert players[..j] == players;
  }

  method NormaliseRows(points: seq<GraphPoint>, players: seq<string>) returns (data: seq<Row>)
    ensures |data| == |points| && forall k :: 0 <= k < |points| ==> RowOk(data[k], points[k], players)
  {
    data := [];
    for k := 0 to |points|
      invariant |data| == k && forall r :: 0 <= r < k ==> RowOk(data[r], points[r], players)
    {
      var row := NormaliseRow(points[k], players);
      data := data + [row];
    }
  }

  // ---- Colours ----

  /** How many players before position `i` are not 'You': the value of `colorIdx` when player `i` is reached. */
  function OthersBefore(players: seq<string>, i: nat): nat
    requires i <= |players|
  {
    if i == 0 then 0 else OthersBefore(players, i - 1) + (if players[i - 1] != "You" then 1 else 0)
  }

  function ColorFor(players: seq<string>, i: nat): string
    requires i < |players|
  {
    if players[i] == "You" then YouColor else OtherColors[OthersBefore(players, i) % |OtherColors|]
  }

  method AssignColors(players: seq<string>) returns (colors: map<string, string>)
    ensures colors.Keys == set p | p in players
    ensures "You" in players ==> colors["You"] == YouColor
    ensures NoDup(players) ==> forall i :: 0 <= i < |players| ==> colors[players[i]] == ColorFor(players, i)
  {
    colors := map[];
    var colorIdx := 0;
    for i := 0 to |players|
      invariant colorIdx == OthersBefore(players, i)
      invariant colors.Keys == set p | p in players[..i]
      invariant "You" in players[..i] ==> colors["You"] == YouColor
      invariant NoDup(players) ==> forall q :: 0 <= q < i ==> colors[players[q]] == ColorFor(players, q)
    {
      assert players[..i + 1] == players[..i] + [players[i]];
      if players[i] == "You" {
        colors := colors[players[i] := YouColor];
      } else {
        colors := colors[players[i] := OtherColors[colorIdx % |OtherColors|]];
        colorIdx := colorIdx + 1;
      }
    }
    assert players[..|players|] == players;
  }

  // ---- The memo ----

  /** `stats?.graph_data` when it is present. */
  function GraphOf(stats: Payload<UserStats>): Option<seq<GraphPoint>> {
    if stats.Data? then stats.value.graphData else None
  }

  /** The `players` the memo derives from a stats body: the first-seen names of its graph, or none. */
  function PlayersOf(stats: Payload<UserStats>): seq<string> {
    if GraphOf(stats).Some? then FirstSeen(AllKeys(GraphOf(stats).value)) else []
  }

  /** The `useMemo` body: with no graph data all three are empty. */
  method ChartModel(stats: Payload<UserStats>) returns (chartData: seq<Row>, players: seq<string>, colorMap: map<string, string>)
    ensures GraphOf(stats).None? ==> chartData == [] && colorMap == map[]
    ensures players == PlayersOf(stats)
    ensures GraphOf(stats).Some? ==>
      |chartData| == |GraphOf(stats).value| &&
      forall k :: 0 <= k < |chartData| ==> RowOk(chartData[k], GraphOf(stats).value[k], players)
    ensures NoDup(players) && forall p :: p in players <==> (GraphOf(stats).Some? && p in AllKeys(GraphOf(stats).value))
    ensures colorMap.Keys == set p | p in players
    ensures "You" in players ==> colorMap["You"] == YouColor
    ensures forall i :: 0 <= i < |players| ==> colorMap[players[i]] == ColorFor(players, i)
    ensures HasSinglePoint(chartData, players) <==> |chartData| == 1 && |players| > 0
  {
    var graph := GraphOf(stats);
    if graph.None? {
      return [], [], map[];
    }
    var points := graph.value;
    players := CollectPlayers(points);
    FirstSeenNoDup(AllKeys(points));
    FirstSeenSameElements(AllKeys(points));
    chartData := NormaliseRows(points, players);
    colorMap := AssignColors(players);
    ForEveryPlayerSinglePoint(chartData, players);
  }

  // ---- hasSinglePoint ----

  predicate HasNumber(row: Row, players: seq<string>) {
    exists p :: p in players && p in row && row[p].ScoreCell?
  }

  /** `chartData.filter(d => players.some(p => typeof d[p] === 'number')).length`. */
  function CountWithNumber(data: seq<Row>, players: seq<string>): nat
    decreases |data|
  {
    if data == [] then 0
    else CountWithNumber(data[..|data| - 1], players) + (if HasNumber(data[|data| - 1], players) then 1 else 0)
  }

  predicate HasSinglePoint(data: seq<Row>, players: seq<string>) {
    CountWithNumber(data, players) == 1
  }

  /**
   * Once every row holds a number for every player, `hasSinglePoint`
   * holds exactly when there is one row and at least one player.
   */
  lemma {:induction false} ForEveryPlayerCount(data: seq<Row>, players: seq<string>)
    requires forall k, p :: 0 <= k < |data| && p in players ==> p in data[k] && data[k][p].ScoreCell?
    ensures CountWithNumber(data, players) == if |players| > 0 then |data| else 0
    decreases |data|
  {
    if data != [] {
      var last := data[|data| - 1];
      ForEveryPlayerCount(data[..|data| - 1], players);
      if |players| > 0 {
        assert players[0] in players && players[0] in last && last[players[0]].ScoreCell?;
      }
    }
  }

  lemma ForEveryPlayerSinglePoint(data: seq<Row>, players: seq<string>)
    requires forall k, p :: 0 <= k < |data| && p in players ==> p in data[k] && data[k][p].ScoreCell?
    ensures HasSinglePoint(data, players) <==> |data| == 1 && |players| > 0
  {
    ForEveryPlayerCount(data, players);
  }

  // ---- Legend ----

  /** The legend click: the active player is cleared, any other is selected. */
  function Toggle(active: Option<string>, player: string): (r: Option<string>)
    ensures r.None? <==> active == Some(player)
    ensures r.Some? ==> r.value == player
  {
    if active == Some(player) then None else Some(player)
  }

  /** `isDimmed`: a player is dimmed exactly when another one is selected. */
  function IsDimmed(active: Option<string>, player: string): (r: bool)
    ensures r <==> active.Some? && active.value != player
  {
    active != None && active != Some(player)
  }

  /** Selecting a player dims every other player and not that one; clicking it again undims all. */
  lemma ToggleFocuses(active: Option<string>, player: string, other: string)
    requires active != Some(player)
    ensures !IsDimmed(Toggle(active, player), player)
    ensures other != player ==> IsDimmed(Toggle(active, player), other)
    ensures !IsDimmed(Toggle(Toggle(active, player), player), other)
  {
  }

  /** The default selection after `players` changes: 'You' when present, else the selection stays. */
  function DefaultSelection(active: Option<string>, players: seq<string>): (r: Option<string>)
    ensures "You" in players ==> r == Some("You")
    ensures "You" !in players ==> r == active
  {
    if |players| == 0 then active
    else if "You" in players then Some("You") else active
  }

  /** The component's state: the last stats received, the loading flag and the legend selection. */
  class StatsView {
    var stats: Payload<UserStats>
    var loading: bool
    var activePlayer: Option<string>

    constructor()
      ensures stats == Null && loading && activePlayer.None?
    {
      stats := Null;
      loading := true;
      activePlayer := None;
    }

    /**
     * One run of `fetchStats`, with the token read from storage: without
     * one nothing is requested and `loading` stays as it was; otherwise
     * the body received is kept and loading ends whether or not the call
     * failed. Every body received is a new object, so the memo derives a
     * new `players` array and the `[players]` effect runs on it: a legend
     * choice lasts only until the next successful poll, which selects
     * 'You' again when the graph lists it.
     */
    method FetchStats(storedToken: Option<string>, clubId: string, reply: Reply<UserStats>) returns (request: Option<Request>)
      modifies this
      ensures !Truthy(storedToken) ==> request.None? && stats == old(stats) && loading == old(loading)
      ensures Truthy(storedToken) ==> request == Some(StatsRequest(storedToken.value, clubId)) && !loading
      ensures Truthy(storedToken) && reply.Got? ==> stats == reply.payload
      ensures Truthy(storedToken) && reply.Failed? ==> stats == old(stats)
      ensures Truthy(storedToken) && reply.Got? ==>
        activePlayer == DefaultSelection(old(activePlayer), PlayersOf(reply.payload))
      ensures !(Truthy(storedToken) && reply.Got?) ==> activePlayer == old(activePlayer)
    {
      if !Truthy(storedToken) {
        return None;
      }
      request := Some(StatsRequest(storedToken.value, clubId));
      if reply.Got? {
        stats := reply.payload;
        var chartData, players, colorMap := ChartModel(stats);
        OnPlayersChanged(players);
      }
      loading := false;
    }

    method OnPlayersChanged(players: seq<string>)
      modifies this
      ensures activePlayer == DefaultSelection(old(activePlayer), players)
      ensures stats == old(stats) && loading == old(loading)
    {
      if |players| == 0 {
        return;
      }
      if "You" in players {
        activePlayer := Some("You");
      }
    }

    method ClickLegend(player: string)
      modifies this
      ensures activePlayer == Toggle(old(activePlayer), player)
      ensures stats == old(stats) && loading == old(loading)
    {
      activePlayer := Toggle(activePlayer, player);
    }
  }
}
