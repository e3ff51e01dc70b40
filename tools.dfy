/**
 * The seventeen tool handlers of the server: how each turns its arguments
 * (after Python's defaults) into an upstream resource, and how a handler's
 * result follows from the upstream answer and the post-fetch filter.
 * The clock and the upstream service are parameters.
 */
module Tools {
  import opened Results
  import opened Json
  import Text
  import Decimal
  import opened Paths
  import Filters

  /**
   * One tool invocation, with each argument as the handler receives it: an
   * `Option` is a Python `Optional[...]`, `None` when the caller passed null or
   * when `None` is the declared default.
   */
  datatype Call =
    | GetDailySchedule(dateStr: Option<string>)
    | GetGameSummary(gameId: string)
    | GetGameBoxscore(gameId: string)
    | GetGamePlayByPlay(gameId: string)
    | GetGamePitchMetrics(gameId: string)
    | GetStandings(year: Option<int>, league: Option<string>)
    | GetPlayerProfile(playerId: string)
    | GetPlayerSeasonalStats(playerId: string, year: Option<int>)
    | GetSeasonalSplits(playerId: string, year: Option<int>, splitType: Option<string>)
    | GetTeamProfile(teamId: string)
    | GetTeamRoster(teamId: string)
    | GetSeasonalStatistics(teamId: string, year: Option<int>, seasonType: Option<string>)
    | GetLeagueLeaders(year: Option<int>, category: Option<string>)
    | GetInjuries
    | GetTransactions(dateStr: Option<string>)
    | GetDraftSummary(draftYear: int)
    | GetTeamHierarchy

  /** The declared defaults of the arguments that do not default to `None`. */
  const DefaultCategory: Option<string> := Some("hitting")
  const DefaultSeasonType: Option<string> := Some("REG")
  const DefaultSplitType: Option<string> := Some("home_away")

  /** Why the upstream exchange failed: `raise_for_status`, the transport, or `response.json()`. */
  datatype UpstreamError = HttpStatus(code: int) | Transport | Decode

  /** What a handler re-raises: an exception of its own code, or the upstream failure. */
  datatype ToolError = Raised(error: PyError) | Upstream(failure: UpstreamError)

  /** `if year is None: year = datetime.now().year`. */
  function YearOr(year: Option<int>, today: Decimal.Date): int {
    if year.None? then today.year else year.value
  }

  /** An `Optional[str]` inside an f-string: `None` renders as the text "None". */
  function Render(s: Option<string>): string {
    if s.None? then "None" else s.value
  }

  /** `date_parts = date_str.split("-")` and its first three items; fewer raise IndexError. */
  function DateParts(dateStr: string): Result<(string, string, string), PyError> {
    var parts := Text.Split(dateStr, '-');
    if |parts| < 3 then Err(IndexError) else Ok((parts[0], parts[1], parts[2]))
  }

  /** The resource a call requests, or the exception its handler raises before requesting. */
  function Resolve(call: Call, today: Decimal.Date): Result<Resource, PyError>
    requires Decimal.ValidToday(today)
  {
    match call
    case GetDailySchedule(dateStr) =>
      var date := if dateStr.None? then Decimal.FormatDate(today) else dateStr.value;
      var p :- DateParts(date);
      Ok(DailySchedule(p.0, p.1, p.2))
    case GetGameSummary(id) => Ok(GameSummary(id))
    case GetGameBoxscore(id) => Ok(GameBoxscore(id))
    case GetGamePlayByPlay(id) => Ok(GamePlayByPlay(id))
    case GetGamePitchMetrics(id) => Ok(GamePitchMetrics(id))
    case GetStandings(year, _) => Ok(Standings(YearOr(year, today)))
    case GetPlayerProfile(id) => Ok(PlayerProfile(id))
    case GetPlayerSeasonalStats(id, year) => Ok(PlayerSeasonalStats(id, YearOr(year, today)))
    case GetSeasonalSplits(id, year, _) => Ok(SeasonalSplits(id, YearOr(year, today)))
    case GetTeamProfile(id) => Ok(TeamProfile(id))
    case GetTeamRoster(id) => Ok(TeamRoster(id))
    case GetSeasonalStatistics(id, year, seasonType) =>
      Ok(SeasonalStatistics(YearOr(year, today), Render(seasonType), id))
    case GetLeagueLeaders(year, _) => Ok(LeagueLeaders(YearOr(year, today)))
    case GetInjuries => Ok(Injuries)
    case GetTransactions(dateStr) =>
      if dateStr.None? || dateStr.value == "" then Ok(RecentTransactions)
      else
        var p :- DateParts(dateStr.value);
        Ok(DailyTransactions(p.0, p.1, p.2))
    case GetDraftSummary(year) => Ok(DraftSummary(year))
    case GetTeamHierarchy => Ok(TeamHierarchy)
  }

  /**
   * A whole handler: resolve the resource, GET its path from `upstream`, then
   * apply the tool's post-fetch filter; every failure is re-raised.
   */
  function Handle(call: Call, today: Decimal.Date, upstream: string -> Result<Json, UpstreamError>): Result<Json, ToolError>
    requires Decimal.ValidToday(today)
  {
    var resource :- Resolve(call, today).MapError(e => Raised(e));
    var body :- upstream(Path(resource)).MapError(u => Upstream(u));
    match call
    case GetStandings(_, league) => Filters.StandingsFilter(body, league).MapError(e => Raised(e))
    case GetLeagueLeaders(_, category) => Filters.LeadersFilter(body, category).MapError(e => Raised(e))
    case _ => Ok(body)
  }

  // ================================================================ lemmas: request construction

  /** Schedule for a given date: the first three '-'-separated parts, or IndexError when there are fewer. */
  lemma ScheduleParts(s: string, today: Decimal.Date)
    requires Decimal.ValidToday(today)
    ensures var parts := Text.Split(s, '-');
      Resolve(GetDailySchedule(Some(s)), today)
        == if |parts| < 3 then Err(IndexError) else Ok(DailySchedule(parts[0], parts[1], parts[2]))
  {
  }

  /** Schedule: parts after the third are ignored. */
  lemma ScheduleIgnoresExtraParts(s: string, extra: string, today: Decimal.Date)
    requires Decimal.ValidToday(today) && |Text.Split(s, '-')| >= 3
    ensures Resolve(GetDailySchedule(Some(s + "-" + extra)), today) == Resolve(GetDailySchedule(Some(s)), today)
  {
    Text.SplitAppend(s, '-', extra);
  }

  /** Schedule without a date: today's date as `YYYY`, `MM`, `DD`; this never raises. */
  lemma ScheduleDefaultsToToday(today: Decimal.Date)
    requires Decimal.ValidToday(today)
    ensures Resolve(GetDailySchedule(None), today)
      == Ok(DailySchedule(Decimal.NatToString(today.year), Decimal.Pad2(today.month), Decimal.Pad2(today.day)))
  {
    Decimal.FormatDateSplit(today);
  }

  /** Transactions: an absent or empty date selects the undated path; otherwise the date is split as for the schedule. */
  lemma TransactionsPaths(dateStr: Option<string>, today: Decimal.Date)
    requires Decimal.ValidToday(today)
    ensures dateStr.None? || dateStr.value == "" ==> Resolve(GetTransactions(dateStr), today) == Ok(RecentTransactions)
    ensures dateStr.Some? && dateStr.value != "" ==>
      var parts := Text.Split(dateStr.value, '-');
      Resolve(GetTransactions(dateStr), today)
        == if |parts| < 3 then Err(IndexError) else Ok(DailyTransactions(parts[0], parts[1], parts[2]))
  {
  }

  /**
   * Every tool with an optional year: an omitted year is the current year, a
   * given one, even 0, is used as is, whatever the other arguments are.
   */
  lemma YearDefaults(year: Option<int>, league: Option<string>, category: Option<string>,
                     id: string, seasonType: Option<string>, splitType: Option<string>, today: Decimal.Date)
    requires Decimal.ValidToday(today)
    ensures var y := if year.None? then today.year else year.value;
      && Resolve(GetStandings(year, league), today) == Ok(Standings(y))
      && Resolve(GetLeagueLeaders(year, category), today) == Ok(LeagueLeaders(y))
      && Resolve(GetPlayerSeasonalStats(id, year), today) == Ok(PlayerSeasonalStats(id, y))
      && Resolve(GetSeasonalSplits(id, year, splitType), today) == Ok(SeasonalSplits(id, y))
      && Resolve(GetSeasonalStatistics(id, year, seasonType), today) == Ok(SeasonalStatistics(y, Render(seasonType), id))
  {
  }

  /** Team statistics: omitted year and season type give the current year and `REG`; a null season type renders as "None". */
  lemma SeasonalStatisticsDefaults(teamId: string, today: Decimal.Date)
    requires Decimal.ValidToday(today)
    ensures Resolve(GetSeasonalStatistics(teamId, None, DefaultSeasonType), today)
      == Ok(SeasonalStatistics(today.year, "REG", teamId))
    ensures Resolve(GetSeasonalStatistics(teamId, None, None), today)
      == Ok(SeasonalStatistics(today.year, "None", teamId))
  {
  }

  /** League leaders: the omitted category defaults to `hitting`, which turns the filter on. */
  lemma LeadersDefaultCategory(year: Option<int>, today: Decimal.Date, upstream: string -> Result<Json, UpstreamError>)
    requires Decimal.ValidToday(today)
    requires upstream(Path(LeagueLeaders(YearOr(year, today)))).Ok?
    ensures Filters.WantsCategory(DefaultCategory)
    ensures Handle(GetLeagueLeaders(year, DefaultCategory), today, upstream)
      == Filters.LeadersFilter(upstream(Path(LeagueLeaders(YearOr(year, today)))).value, Some("hitting")).MapError(e => Raised(e))
  {
    assert Text.Lower("hitting") == "hitting";
  }

  /** Seasonal splits: with the default split type, the request is the player's splits for the year. */
  lemma SeasonalSplitsDefaults(playerId: string, year: Option<int>, today: Decimal.Date)
    requires Decimal.ValidToday(today)
    ensures Resolve(GetSeasonalSplits(playerId, year, DefaultSplitType), today)
      == Ok(SeasonalSplits(playerId, if year.None? then today.year else year.value))
  {
  }

  /** Seasonal splits: the split type never reaches the request. */
  lemma SplitTypeUnused(playerId: string, year: Option<int>, s1: Option<string>, s2: Option<string>, today: Decimal.Date)
    requires Decimal.ValidToday(today)
    ensures Resolve(GetSeasonalSplits(playerId, year, s1), today) == Resolve(GetSeasonalSplits(playerId, year, s2), today)
  {
  }

  /** No slash in an identifier argument; then each identifier is one path segment. */
  ghost predicate SafeCall(call: Call) {
    match call
    case GetDailySchedule(d) => d.Some? ==> '/' !in d.value
    case GetTransactions(d) => d.Some? ==> '/' !in d.value
    case GetSeasonalStatistics(id, _, st) => '/' !in id && '/' !in Render(st)
    case GetGameSummary(id) => '/' !in id
    case GetGameBoxscore(id) => '/' !in id
    case GetGamePlayByPlay(id) => '/' !in id
    case GetGamePitchMetrics(id) => '/' !in id
    case GetPlayerProfile(id) => '/' !in id
    case GetPlayerSeasonalStats(id, _) => '/' !in id
    case GetSeasonalSplits(id, _, _) => '/' !in id
    case GetTeamProfile(id) => '/' !in id
    case GetTeamRoster(id) => '/' !in id
    case _ => true
  }

  /** The parts of a string without '/' have none either. */
  lemma PartsWithoutSlash(s: string)
    requires '/' !in s
    ensures Text.Separated(Text.Split(s, '-'), '/')
  {
    Text.JoinSplit(s, '-');
    var parts := Text.Split(s, '-');
    Text.SplitSeparated(s, '-');
    forall k | 0 <= k < |parts| ensures '/' !in parts[k] {
      PartInJoin(parts, '-', k);
    }
  }

  /** Each piece of a join occurs inside it. */
  lemma {:induction false} PartInJoin(parts: seq<string>, sep: char, k: int)
    requires 0 <= k < |parts|
    ensures forall c :: c in parts[k] ==> c in Text.Join(parts, sep)
    decreases |parts|
  {
    if |parts| > 1 && k > 0 {
      PartInJoin(parts[1..], sep, k - 1);
      assert Text.Join(parts, sep) == parts[0] + [sep] + Text.Join(parts[1..], sep);
    }
  }

  /** A call with slash-free identifiers requests a resource with safe identifiers. */
  lemma ResolveSafe(call: Call, today: Decimal.Date)
    requires Decimal.ValidToday(today) && SafeCall(call) && Resolve(call, today).Ok?
    ensures Safe(Resolve(call, today).value)
  {
    if call.GetDailySchedule? {
      ScheduleSafe(call.dateStr, today);
    } else if call.GetTransactions? {
      TransactionsSafe(call.dateStr, today);
    }
  }

  lemma ScheduleSafe(dateStr: Option<string>, today: Decimal.Date)
    requires Decimal.ValidToday(today) && SafeCall(GetDailySchedule(dateStr))
    requires Resolve(GetDailySchedule(dateStr), today).Ok?
    ensures Safe(Resolve(GetDailySchedule(dateStr), today).value)
  {
    var r := Resolve(GetDailySchedule(dateStr), today).value;
    if dateStr.None? {
      Decimal.FormatDateSplit(today);
      Decimal.NoSeparatorInDigits(today.year);
      Decimal.Pad2Digits(today.month);
      Decimal.Pad2Digits(today.day);
    } else {
      PartsWithoutSlash(dateStr.value);
    }
    assert Identifiers(r) == [r.year, r.month, r.day];
  }

  lemma TransactionsSafe(dateStr: Option<string>, today: Decimal.Date)
    requires Decimal.ValidToday(today) && SafeCall(GetTransactions(dateStr))
    requires Resolve(GetTransactions(dateStr), today).Ok?
    ensures Safe(Resolve(GetTransactions(dateStr), today).value)
  {
    var r := Resolve(GetTransactions(dateStr), today).value;
    if r.DailyTransactions? {
      PartsWithoutSlash(dateStr.value);
      assert Identifiers(r) == [r.year, r.month, r.day];
    }
  }

  /** A call with slash-free identifiers requests a path that routes back to its resource: substitution is verbatim. */
  lemma RequestRoutesBack(call: Call, today: Decimal.Date)
    requires Decimal.ValidToday(today) && SafeCall(call) && Resolve(call, today).Ok?
    ensures Route(Path(Resolve(call, today).value)) == Some(Resolve(call, today).value)
  {
    ResolveSafe(call, today);
    RoutePath(Resolve(call, today).value);
  }

  // ================================================================ lemmas: the whole handler

  /** An upstream failure is re-raised, never turned into a result. */
  lemma UpstreamFailurePropagates(call: Call, today: Decimal.Date, upstream: string -> Result<Json, UpstreamError>)
    requires Decimal.ValidToday(today) && Resolve(call, today).Ok?
    requires upstream(Path(Resolve(call, today).value)).Err?
    ensures Handle(call, today, upstream) == Err(Upstream(upstream(Path(Resolve(call, today).value)).error))
  {
  }

  /** An exception raised while building the request is re-raised before anything is fetched. */
  lemma RequestFailurePropagates(call: Call, today: Decimal.Date, upstream: string -> Result<Json, UpstreamError>)
    requires Decimal.ValidToday(today) && Resolve(call, today).Err?
    ensures Handle(call, today, upstream) == Err(Raised(Resolve(call, today).error))
  {
  }

  /** Every tool but the standings and leaders tools returns the decoded body unchanged. */
  lemma UnfilteredPassThrough(call: Call, today: Decimal.Date, upstream: string -> Result<Json, UpstreamError>)
    requires Decimal.ValidToday(today) && !call.GetStandings? && !call.GetLeagueLeaders?
    requires Resolve(call, today).Ok? && upstream(Path(Resolve(call, today).value)).Ok?
    ensures Handle(call, today, upstream) == Ok(upstream(Path(Resolve(call, today).value)).value)
  {
  }

  /** The standings and leaders tools return their filter's verdict on the decoded body. */
  lemma FilteredTools(call: Call, today: Decimal.Date, upstream: string -> Result<Json, UpstreamError>)
    requires Decimal.ValidToday(today) && (call.GetStandings? || call.GetLeagueLeaders?)
    requires upstream(Path(Resolve(call, today).value)).Ok?
    ensures var body := upstream(Path(Resolve(call, today).value)).value;
      Handle(call, today, upstream)
        == (if call.GetStandings? then Filters.StandingsFilter(body, call.league)
            else Filters.LeadersFilter(body, call.category)).MapError(e => Raised(e))
  {
  }

  // ================================================================ worked examples

  /** `get_game_summary("660001")` requests `/en/games/660001/summary.json`. */
  lemma GameSummaryExample(today: Decimal.Date)
    requires Decimal.ValidToday(today)
    ensures Resolve(GetGameSummary("660001"), today) == Ok(GameSummary("660001"))
    ensures Path(GameSummary("660001")) == "/en/games/660001/summary.json"
  {
    GameSummaryPathExample();
  }

  /** `get_standings()` on 2024-07-04 requests `/en/seasons/2024/standings.json`. */
  lemma StandingsDefaultExample()
    ensures Resolve(GetStandings(None, None), Decimal.Date(2024, 7, 4)) == Ok(Standings(2024))
    ensures Path(Standings(2024)) == "/en/seasons/2024/standings.json"
  {
    StandingsPathExample();
  }
}
