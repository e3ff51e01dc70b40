/**
 * The upstream resources the tools request, the path template of each, and the
 * inverse of the templates: a router that reads a path back into the resource.
 * The round trip in both directions shows that every identifier is substituted
 * verbatim and that no two safe resources share a path; identifiers holding a
 * `/` can collide, since nothing is escaped.
 */
module Paths {
  import opened Results
  import Text
  import Decimal

  /** One upstream request, with every parameter already defaulted and rendered. */
  datatype Resource =
    | DailySchedule(year: string, month: string, day: string)
    | GameSummary(gameId: string)
    | GameBoxscore(gameId: string)
    | GamePlayByPlay(gameId: string)
    | GamePitchMetrics(gameId: string)
    | Standings(season: int)
    | PlayerProfile(playerId: string)
    | PlayerSeasonalStats(playerId: string, season: int)
    | SeasonalSplits(playerId: string, season: int)
    | TeamProfile(teamId: string)
    | TeamRoster(teamId: string)
    | SeasonalStatistics(season: int, seasonType: string, teamId: string)
    | LeagueLeaders(season: int)
    | Injuries
    | RecentTransactions
    | DailyTransactions(year: string, month: string, day: string)
    | DraftSummary(season: int)
    | TeamHierarchy

  /**
   * The request path each handler passes to `client.get`, relative to the API base:
   * the template's segments, each preceded by '/', e.g. `/en/games/{game_id}/summary.json`.
   */
  function Path(r: Resource): string {
    Rooted(Segments(r))
  }

  /** The template of each resource, as its '/'-separated segments after the leading '/'. */
  function Segments(r: Resource): seq<string> {
    match r
    case DailySchedule(y, m, d) => ["en", "games", y, m, d, "schedule.json"]
    case GameSummary(id) => ["en", "games", id, "summary.json"]
    case GameBoxscore(id) => ["en", "games", id, "boxscore.json"]
    case GamePlayByPlay(id) => ["en", "games", id, "pbp.json"]
    case GamePitchMetrics(id) => ["en", "games", id, "pitch_metrics.json"]
    case Standings(year) => ["en", "seasons", Decimal.IntToString(year), "standings.json"]
    case PlayerProfile(id) => ["en", "players", id, "profile.json"]
    case PlayerSeasonalStats(id, year) => ["en", "players", id, "seasons", Decimal.IntToString(year), "statistics.json"]
    case SeasonalSplits(id, year) => ["en", "players", id, "seasons", Decimal.IntToString(year), "splits.json"]
    case TeamProfile(id) => ["en", "teams", id, "profile.json"]
    case TeamRoster(id) => ["en", "teams", id, "roster.json"]
    case SeasonalStatistics(year, st, id) => ["en", "seasons", Decimal.IntToString(year), st, "teams", id, "statistics.json"]
    case LeagueLeaders(year) => ["en", "seasons", Decimal.IntToString(year), "leaders.json"]
    case Injuries => ["en", "injuries.json"]
    case RecentTransactions => ["en", "league", "transactions.json"]
    case DailyTransactions(y, m, d) => ["en", "league", y, m, d, "transactions.json"]
    case DraftSummary(year) => ["en", "league", "drafts", Decimal.IntToString(year), "summary.json"]
    case TeamHierarchy => ["en", "league", "hierarchy.json"]
  }

  /** The caller-supplied text placed in the path: identifiers, date parts, season type. */
  function Identifiers(r: Resource): seq<string> {
    match r
    case DailySchedule(y, m, d) => [y, m, d]
    case GameSummary(id) => [id]
    case GameBoxscore(id) => [id]
    case GamePlayByPlay(id) => [id]
    case GamePitchMetrics(id) => [id]
    case PlayerProfile(id) => [id]
    case PlayerSeasonalStats(id, _) => [id]
    case SeasonalSplits(id, _) => [id]
    case TeamProfile(id) => [id]
    case TeamRoster(id) => [id]
    case SeasonalStatistics(_, st, id) => [st, id]
    case DailyTransactions(y, m, d) => [y, m, d]
    case _ => []
  }

  /** No identifier holds a '/', so each one stays a single path segment. */
  ghost predicate Safe(r: Resource) {
    Text.Separated(Identifiers(r), '/')
  }

  /** '/' followed by each segment. */
  function Rooted(segs: seq<string>): string {
    if segs == [] then "" else "/" + segs[0] + Rooted(segs[1..])
  }

  /** Which resource a path names: the inverse of `Path`. */
  function Route(p: string): Option<Resource> {
    var parts := Text.Split(p, '/');
    if |parts| < 2 || parts[0] != "" || parts[1] != "en" then None
    else RouteSegments(parts[2..])
  }

  /** The segments after `en`, dispatched on the collection they name. */
  function RouteSegments(s: seq<string>): Option<Resource> {
    if |s| == 0 then None
    else if s[0] == "games" then RouteGame(s[1..])
    else if s[0] == "seasons" then RouteSeason(s[1..])
    else if s[0] == "players" then RoutePlayer(s[1..])
    else if s[0] == "teams" then RouteTeam(s[1..])
    else if s[0] == "league" then RouteLeague(s[1..])
    else if s[0] == "injuries.json" && |s| == 1 then Some(Injuries)
    else None
  }

  /** Under `/en/games/`. */
  function RouteGame(s: seq<string>): Option<Resource> {
    if |s| == 2 then
      if s[1] == "summary.json" then Some(GameSummary(s[0]))
      else if s[1] == "boxscore.json" then Some(GameBoxscore(s[0]))
      else if s[1] == "pbp.json" then Some(GamePlayByPlay(s[0]))
      else if s[1] == "pitch_metrics.json" then Some(GamePitchMetrics(s[0]))
      else None
    else if |s| == 4 && s[3] == "schedule.json" then Some(DailySchedule(s[0], s[1], s[2]))
    else None
  }

  /** Under `/en/seasons/`. */
  function RouteSeason(s: seq<string>): Option<Resource> {
    if |s| == 0 then None
    else
      match Decimal.ParseInt(s[0])
      case None => None
      case Some(year) =>
        if |s| == 2 && s[1] == "standings.json" then Some(Standings(year))
        else if |s| == 2 && s[1] == "leaders.json" then Some(LeagueLeaders(year))
        else if |s| == 5 && s[2] == "teams" && s[4] == "statistics.json" then Some(SeasonalStatistics(year, s[1], s[3]))
        else None
  }

  /** Under `/en/players/`. */
  function RoutePlayer(s: seq<string>): Option<Resource> {
    if |s| == 2 && s[1] == "profile.json" then Some(PlayerProfile(s[0]))
    else if |s| == 4 && s[1] == "seasons" then
      match Decimal.ParseInt(s[2])
      case None => None
      case Some(year) =>
        if s[3] == "statistics.json" then Some(PlayerSeasonalStats(s[0], year))
        else if s[3] == "splits.json" then Some(SeasonalSplits(s[0], year))
        else None
    else None
  }

  /** Under `/en/teams/`. */
  function RouteTeam(s: seq<string>): Option<Resource> {
    if |s| == 2 && s[1] == "profile.json" then Some(TeamProfile(s[0]))
    else if |s| == 2 && s[1] == "roster.json" then Some(TeamRoster(s[0]))
    else None
  }

  /** Under `/en/league/`. */
  function RouteLeague(s: seq<string>): Option<Resource> {
    if |s| == 1 && s[0] == "transactions.json" then Some(RecentTransactions)
    else if |s| == 1 && s[0] == "hierarchy.json" then Some(TeamHierarchy)
    else if |s| == 3 && s[0] == "drafts" && s[2] == "summary.json" then
      match Decimal.ParseInt(s[1])
      case None => None
      case Some(year) => Some(DraftSummary(year))
    else if |s| == 4 && s[3] == "transactions.json" then Some(DailyTransactions(s[0], s[1], s[2]))
    else None
  }

  // ---------------------------------------------------------------- lemmas

  /** The segments after the first of a separator-free list are separator-free. */
  lemma SeparatedTail(segs: seq<string>)
    requires segs != [] && Text.Separated(segs, '/')
    ensures Text.Separated(segs[1..], '/')
  {
    forall k | 0 <= k < |segs[1..]| ensures '/' !in segs[1..][k] {
      assert segs[1..][k] == segs[k + 1];
    }
  }

  /** A leading piece then a non-empty rooted path: the piece, a `/`, the first segment and the rest. */
  lemma RootedCons(x: string, segs: seq<string>)
    requires segs != []
    ensures x + Rooted(segs) == x + ['/'] + (segs[0] + Rooted(segs[1..]))
  {
  }

  /** Splitting `x` followed by rooted, separator-free segments yields `x` then the segments. */
  lemma {:induction false} SplitAfter(x: string, segs: seq<string>)
    requires '/' !in x && Text.Separated(segs, '/')
    ensures Text.Split(x + Rooted(segs), '/') == [x] + segs
    decreases |segs|
  {
    if segs == [] {
      assert x + Rooted(segs) == x;
    } else {
      var tail := segs[0] + Rooted(segs[1..]);
      SeparatedTail(segs);
      calc {
        Text.Split(x + Rooted(segs), '/');
        { RootedCons(x, segs); }
        Text.Split(x + ['/'] + tail, '/');
        { Text.SplitCons(x, '/', tail); }
        [x] + Text.Split(tail, '/');
        { SplitAfter(segs[0], segs[1..]); }
        [x] + ([segs[0]] + segs[1..]);
        { assert [segs[0]] + segs[1..] == segs; }
        [x] + segs;
      }
    }
  }

  /** Joining a leading piece and segments with '/' is that piece followed by the rooted segments. */
  lemma {:induction false} JoinRooted(x: string, segs: seq<string>)
    ensures Text.Join([x] + segs, '/') == x + Rooted(segs)
    decreases |segs|
  {
    if segs != [] {
      JoinRooted(segs[0], segs[1..]);
      assert ([x] + segs)[1..] == [segs[0]] + segs[1..];
    }
  }

  /** Safe identifiers leave every segment free of '/'. */
  lemma SafeSegments(r: Resource)
    requires Safe(r)
    ensures Text.Separated(Segments(r), '/')
  {
    if r.DailySchedule? || r.GameSummary? || r.GameBoxscore? || r.GamePlayByPlay? || r.GamePitchMetrics? {
      SafeGameSegments(r);
    } else if r.Standings? || r.LeagueLeaders? || r.SeasonalStatistics? {
      SafeSeasonSegments(r);
    } else if r.PlayerProfile? || r.PlayerSeasonalStats? || r.SeasonalSplits? {
      SafePlayerSegments(r);
    } else if r.TeamProfile? || r.TeamRoster? {
      SafeTeamSegments(r);
    } else {
      SafeLeagueSegments(r);
    }
  }

  lemma SafeGameSegments(r: Resource)
    requires Safe(r) && (r.DailySchedule? || r.GameSummary? || r.GameBoxscore? || r.GamePlayByPlay? || r.GamePitchMetrics?)
    ensures Text.Separated(Segments(r), '/')
  {
    var ids := Identifiers(r);
    if r.DailySchedule? {
      assert ids[0] == r.year && ids[1] == r.month && ids[2] == r.day;
    } else {
      assert ids[0] == r.gameId;
    }
  }

  lemma SafeSeasonSegments(r: Resource)
    requires Safe(r) && (r.Standings? || r.LeagueLeaders? || r.SeasonalStatistics?)
    ensures Text.Separated(Segments(r), '/')
  {
    Decimal.NoSlashInInt(r.season);
    if r.SeasonalStatistics? {
      assert Identifiers(r)[0] == r.seasonType && Identifiers(r)[1] == r.teamId;
    }
  }

  lemma SafePlayerSegments(r: Resource)
    requires Safe(r) && (r.PlayerProfile? || r.PlayerSeasonalStats? || r.SeasonalSplits?)
    ensures Text.Separated(Segments(r), '/')
  {
    assert Identifiers(r)[0] == r.playerId;
    if !r.PlayerProfile? {
      Decimal.NoSlashInInt(r.season);
    }
  }

  lemma SafeTeamSegments(r: Resource)
    requires Safe(r) && (r.TeamProfile? || r.TeamRoster?)
    ensures Text.Separated(Segments(r), '/')
  {
    assert Identifiers(r)[0] == r.teamId;
  }

  lemma SafeLeagueSegments(r: Resource)
    requires Safe(r)
    requires r.Injuries? || r.RecentTransactions? || r.DailyTransactions? || r.DraftSummary? || r.TeamHierarchy?
    ensures Text.Separated(Segments(r), '/')
  {
    if r.DailyTransactions? {
      var ids := Identifiers(r);
      assert ids[0] == r.year && ids[1] == r.month && ids[2] == r.day;
    } else if r.DraftSummary? {
      Decimal.NoSlashInInt(r.season);
    }
  }

  /** The router reads the segments of a resource's template back into that resource. */
  lemma RouteSegmentsOf(r: Resource)
    ensures RouteSegments(Segments(r)[1..]) == Some(r)
  {
    var s := Segments(r)[1..];
    assert s[1..] == Segments(r)[2..];
    if r.DailySchedule? || r.GameSummary? || r.GameBoxscore? || r.GamePlayByPlay? || r.GamePitchMetrics? {
      RouteGameOf(r);
    } else if r.Standings? || r.LeagueLeaders? || r.SeasonalStatistics? {
      RouteSeasonOf(r);
    } else if r.PlayerProfile? || r.PlayerSeasonalStats? || r.SeasonalSplits? {
      RoutePlayerOf(r);
    } else if r.TeamProfile? || r.TeamRoster? {
      RouteTeamOf(r);
    } else if !r.Injuries? {
      RouteLeagueOf(r);
    }
  }

  lemma RouteGameOf(r: Resource)
    requires r.DailySchedule? || r.GameSummary? || r.GameBoxscore? || r.GamePlayByPlay? || r.GamePitchMetrics?
    ensures Segments(r)[1] == "games" && RouteGame(Segments(r)[2..]) == Some(r)
  {
  }

  lemma RouteSeasonOf(r: Resource)
    requires r.Standings? || r.LeagueLeaders? || r.SeasonalStatistics?
    ensures Segments(r)[1] == "seasons" && RouteSeason(Segments(r)[2..]) == Some(r)
  {
    Decimal.ParseIntToString(r.season);
  }

  lemma RoutePlayerOf(r: Resource)
    requires r.PlayerProfile? || r.PlayerSeasonalStats? || r.SeasonalSplits?
    ensures Segments(r)[1] == "players" && RoutePlayer(Segments(r)[2..]) == Some(r)
  {
    if !r.PlayerProfile? {
      Decimal.ParseIntToString(r.season);
    }
  }

  lemma RouteTeamOf(r: Resource)
    requires r.TeamProfile? || r.TeamRoster?
    ensures Segments(r)[1] == "teams" && RouteTeam(Segments(r)[2..]) == Some(r)
  {
  }

  lemma RouteLeagueOf(r: Resource)
    requires r.RecentTransactions? || r.DailyTransactions? || r.DraftSummary? || r.TeamHierarchy?
    ensures Segments(r)[1] == "league" && RouteLeague(Segments(r)[2..]) == Some(r)
  {
    if r.DraftSummary? {
      Decimal.ParseIntToString(r.season);
    }
  }

  /** A rooted path of separator-free segments splits into an empty piece and the segments. */
  lemma SplitRooted(segs: seq<string>)
    requires Text.Separated(segs, '/')
    ensures Text.Split(Rooted(segs), '/') == [""] + segs
  {
    SplitAfter("", segs);
    assert "" + Rooted(segs) == Rooted(segs);
  }

  /** A path that splits into an empty piece, `en` and `rest` is routed by reading `rest`. */
  lemma RouteOfParts(p: string, rest: seq<string>)
    requires Text.Split(p, '/') == ["", "en"] + rest
    ensures Route(p) == RouteSegments(rest)
  {
    var parts := Text.Split(p, '/');
    assert |parts| >= 2 && parts[0] == "" && parts[1] == "en";
    assert parts[2..] == rest;
  }

  /** Routing a rooted path under `en` comes down to reading its remaining segments. */
  lemma RouteRooted(segs: seq<string>)
    requires |segs| >= 1 && segs[0] == "en" && Text.Separated(segs, '/')
    ensures Route(Rooted(segs)) == RouteSegments(segs[1..])
  {
    SplitRooted(segs);
    assert [""] + segs == ["", "en"] + segs[1..];
    RouteOfParts(Rooted(segs), segs[1..]);
  }

  /** Routing the path of a resource with safe identifiers gives back that resource. */
  lemma RoutePath(r: Resource)
    requires Safe(r)
    ensures Route(Path(r)) == Some(r)
  {
    SafeSegments(r);
    var segs := Segments(r);
    assert |segs| >= 1 && segs[0] == "en";
    RouteRooted(segs);
    RouteSegmentsOf(r);
  }

  /** A segment the router reads as a season is the text of that season. */
  lemma SeasonExact(s: string, year: int)
    requires Decimal.ParseInt(s) == Some(year)
    ensures Decimal.IntToString(year) == s
  {
  }

  /** The segments a routed resource is read from are exactly its template's segments. */
  lemma RouteSegmentsExact(s: seq<string>, r: Resource)
    requires RouteSegments(s) == Some(r)
    ensures Segments(r) == ["en"] + s
  {
    if s[0] == "games" {
      CollectionExact(s, r, "games");
      RouteGameExact(s[1..], r);
    } else if s[0] == "seasons" {
      CollectionExact(s, r, "seasons");
      RouteSeasonExact(s[1..], r);
    } else if s[0] == "players" {
      CollectionExact(s, r, "players");
      RoutePlayerExact(s[1..], r);
    } else if s[0] == "teams" {
      CollectionExact(s, r, "teams");
      RouteTeamExact(s[1..], r);
    } else if s[0] == "league" {
      CollectionExact(s, r, "league");
      RouteLeagueExact(s[1..], r);
    } else {
      assert r == Injuries && s == ["injuries.json"];
    }
  }

  /** The segments under one collection are that collection followed by the rest. */
  lemma CollectionExact(s: seq<string>, r: Resource, c: string)
    requires |s| > 0 && s[0] == c
    ensures ["en", c] + s[1..] == ["en"] + s
  {
    assert s == [c] + s[1..];
  }

  lemma RouteGameExact(t: seq<string>, r: Resource)
    requires RouteGame(t) == Some(r)
    ensures Segments(r) == ["en", "games"] + t
  {
  }

  lemma RouteSeasonExact(t: seq<string>, r: Resource)
    requires RouteSeason(t) == Some(r)
    ensures Segments(r) == ["en", "seasons"] + t
  {
    SeasonExact(t[0], Decimal.ParseInt(t[0]).value);
  }

  lemma RoutePlayerExact(t: seq<string>, r: Resource)
    requires RoutePlayer(t) == Some(r)
    ensures Segments(r) == ["en", "players"] + t
  {
    if |t| == 4 {
      SeasonExact(t[2], Decimal.ParseInt(t[2]).value);
    }
  }

  lemma RouteTeamExact(t: seq<string>, r: Resource)
    requires RouteTeam(t) == Some(r)
    ensures Segments(r) == ["en", "teams"] + t
  {
  }

  lemma RouteLeagueExact(t: seq<string>, r: Resource)
    requires RouteLeague(t) == Some(r)
    ensures Segments(r) == ["en", "league"] + t
  {
    if |t| == 3 && t[0] == "drafts" && t[2] == "summary.json" {
      SeasonExact(t[1], Decimal.ParseInt(t[1]).value);
    }
  }

  /** A path the router accepts is exactly the path of the resource it names, and that resource is safe. */
  lemma PathRoute(p: string, r: Resource)
    requires Route(p) == Some(r)
    ensures Path(r) == p && Safe(r)
  {
    var parts := Text.Split(p, '/');
    assert |parts| >= 2 && parts[0] == "" && parts[1] == "en" && RouteSegments(parts[2..]) == Some(r);
    RouteSegmentsExact(parts[2..], r);
    assert parts == [""] + Segments(r) by {
      assert parts == [parts[0]] + ([parts[1]] + parts[2..]);
    }
    Text.JoinSplit(p, '/');
    JoinRooted("", Segments(r));
    assert "" + Rooted(Segments(r)) == Rooted(Segments(r));
    Text.SplitSeparated(p, '/');
    SeparatedTail(parts);
    IdentifiersInSegments(r);
  }

  /** Every identifier of a resource is one of its path segments, so separator-free segments make it safe. */
  lemma IdentifiersInSegments(r: Resource)
    requires Text.Separated(Segments(r), '/')
    ensures Safe(r)
  {
    assert forall k :: 0 <= k < |Identifiers(r)| ==> Identifiers(r)[k] in Segments(r);
  }

  // ---------------------------------------------------------------- worked examples

  lemma RootedFour(a: string, b: string, c: string, d: string)
    ensures Rooted([a, b, c, d]) == "/" + a + "/" + b + "/" + c + "/" + d
  {
    var s := [a, b, c, d];
    assert s[1..] == [b, c, d] && s[1..][1..] == [c, d] && s[1..][1..][1..] == [d];
    assert Rooted([d]) == "/" + d;
    assert Rooted([c, d]) == "/" + c + "/" + d;
    assert Rooted([b, c, d]) == "/" + b + "/" + c + "/" + d;
  }

  /** A rooted path of two segment lists is the two rooted paths one after the other. */
  lemma {:induction false} RootedAppend(p: seq<string>, q: seq<string>)
    ensures Rooted(p + q) == Rooted(p) + Rooted(q)
    decreases |p|
  {
    if p == [] {
      assert p + q == q;
    } else {
      assert (p + q)[0] == p[0] && (p + q)[1..] == p[1..] + q;
      RootedAppend(p[1..], q);
    }
  }

  /** A segment holding a `/` renders exactly like the two segments on either side of it. */
  lemma RootedSlash(x: string, y: string, rest: seq<string>)
    ensures Rooted([x + "/" + y] + rest) == Rooted([x, y] + rest)
  {
    assert ([x + "/" + y] + rest)[1..] == rest;
    assert ([x, y] + rest)[1..] == [y] + rest && ([y] + rest)[1..] == rest;
  }

  /**
   * Identifiers are substituted without escaping: moving a `/` from the year
   * into the month of a dated transactions request leaves the path unchanged.
   */
  lemma UnescapedCollision(a: string, b: string, c: string, d: string)
    ensures DailyTransactions(a + "/" + b, c, d) != DailyTransactions(a, b + "/" + c, d)
    ensures Path(DailyTransactions(a + "/" + b, c, d)) == Path(DailyTransactions(a, b + "/" + c, d))
  {
    assert |a + "/" + b| != |a|;
    var tail := ["transactions.json"];
    var whole := ["en", "league", a, b, c, d] + tail;
    RootedSlash(a, b, [c, d] + tail);
    RootedAppend(["en", "league"], [a + "/" + b] + ([c, d] + tail));
    RootedAppend(["en", "league"], [a, b] + ([c, d] + tail));
    assert ["en", "league"] + ([a + "/" + b] + ([c, d] + tail)) == Segments(DailyTransactions(a + "/" + b, c, d));
    assert ["en", "league"] + ([a, b] + ([c, d] + tail)) == whole;
    RootedSlash(b, c, [d] + tail);
    RootedAppend(["en", "league", a], [b + "/" + c] + ([d] + tail));
    RootedAppend(["en", "league", a], [b, c] + ([d] + tail));
    assert ["en", "league", a] + ([b + "/" + c] + ([d] + tail)) == Segments(DailyTransactions(a, b + "/" + c, d));
    assert ["en", "league", a] + ([b, c] + ([d] + tail)) == whole;
  }

  /** The summary of game 660001 is at `/en/games/660001/summary.json`. */
  lemma GameSummaryPathExample()
    ensures Path(GameSummary("660001")) == "/en/games/660001/summary.json"
  {
    RootedFour("en", "games", "660001", "summary.json");
  }

  /** The 2024 standings are at `/en/seasons/2024/standings.json`. */
  lemma StandingsPathExample()
    ensures Path(Standings(2024)) == "/en/seasons/2024/standings.json"
  {
    Decimal.IntToString2024();
    RootedFour("en", "seasons", "2024", "standings.json");
  }
}
