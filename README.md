# MLB SportRadar MCP server: the tool adapters in Dafny

The server exposes seventeen MCP tools. Each turns its arguments into a GET
request on the SportRadar MLB v8 API and returns the decoded JSON body. Two of
them (`get_standings`, `get_league_leaders`) then filter that body. This
project models the data handling of those handlers:

- **Requests** (`paths.dfy`, `tools.dfy`). A `Tools.Call` is one tool
  invocation, with the arguments as the handler sees them.
  `Tools.Resolve` replaces a `None` schedule date by today's date (a `None`
  or empty transactions date selects the undated path) and a `None` year by
  the current year, renders a `None` season type as the text `None`, and
  splits dates on `-`. The declared defaults of the other optional arguments
  (`"hitting"`, `"REG"`, `"home_away"`) are the constants `DefaultCategory`,
  `DefaultSeasonType` and `DefaultSplitType`: the argument a call carries when
  the caller omits it. It yields a `Paths.Resource`, or the `IndexError` the handler raises for a
  date with fewer than three parts. `Paths.Path` puts a resource into its URL
  template. `Paths.Route` is the inverse router. It is proved to recover every
  resource whose identifiers contain no `/`, and every path it accepts is
  exactly the path of the resource it returns.
- **Filters** (`filters.dfy`). `Filters.FilterStandings` and
  `Filters.FilterLeaders` are the loops from the handlers, run on a JSON
  value. Each is proved equal to a specification function
  (`StandingsFilter`, `LeadersFilter`). Lemmas about those functions state
  the promises:
  - the first league whose alias matches is returned as `{league: entry}`;
  - every other outcome falls back to the unfiltered body;
  - the leaders filter keeps exactly the members whose lower-cased key
    contains the category, in their original order and with their values;
  - the exceptions Python raises on an ill-shaped body are characterised.
- **Handlers** (`tools.dfy`). `Tools.Handle` composes resolution, one
  upstream exchange (a function parameter standing for HTTP and JSON
  decoding) and the filter. Lemmas show that every failure is propagated
  unchanged, and that only the two filtering tools change the body.
- **Support** (`results.dfy`, `text.dfy`, `decimal.dfy`, `json.dfy`):
  - `Option`/`Result`;
  - ASCII case mapping, Python's substring test, `str.split` with a one-char
    separator and its inverse `Join`;
  - decimal rendering of integers and its exact parser;
  - `strftime("%Y-%m-%d")`;
  - a JSON value with the Python operations the filters use (`in`, `[]`,
    iteration, `.items()`, `.get()`, `.upper()`), each raising the Python
    exception for a wrong type.

The clock is a parameter `today: Decimal.Date`. It is read for both
`date.today()` and `datetime.now().year`.

**The filters can raise.** On a body of the wrong shape the filters raise
instead of falling back. Examples are `None.upper()` for a league entry with
`"alias": null` (server.py:152), and `.items()` on a `leaders` value that is
not a dict (server.py:203). The model keeps these exceptions:
- `Filters.StandingsNullAliasRaises` exhibits such an input;
- `Filters.StandingsShapedNeverFails` states the condition under which the
  standings filter does not fail;
- `Filters.LeadersItemsRaises` and `Filters.LeadersShapedNeverFails` do the
  same for the leaders filter.

## Model

| member | source | states |
|---|---|---|
| Filters.FilterStandings | src/mlb_sportradar_mcp/server.py:147-155 | the loop with its early return computes exactly `StandingsFilter`: the guard, both `in` tests, the search over `leagues`, and every exception it raises |
| Filters.FindLeagueFound | src/mlb_sportradar_mcp/server.py:151-153 | the search yields entry `e` if and only if `e` is the first entry whose upper-cased alias equals the code, and every earlier entry had a readable non-matching alias |
| Filters.FindLeagueNone | src/mlb_sportradar_mcp/server.py:151-153 | the search finds nothing if and only if every entry has a readable alias different from the code |
| Filters.FindLeagueRaises | src/mlb_sportradar_mcp/server.py:151-152 | the search raises `x` if and only if some entry's alias read raises `x` and every earlier entry was passed over |
| Filters.FindLeagueIgnoresLater | src/mlb_sportradar_mcp/server.py:152-153 | once a match is found, entries after it do not affect the result (the early return) |
| Filters.MissingAliasPassedOver | src/mlb_sportradar_mcp/server.py:152 | an entry without `alias` reads as `''` and never matches AL or NL |
| Filters.StandingsUnfiltered | src/mlb_sportradar_mcp/server.py:148 | a `league` that is absent, empty, or not AL/NL in any case leaves the body unchanged |
| Filters.StandingsMatch | src/mlb_sportradar_mcp/server.py:148-153 | with an AL/NL league, the result is `{league: entries[i]}` for the first matching entry `i` |
| Filters.StandingsWithoutStandings | src/mlb_sportradar_mcp/server.py:150 | a dict body without `standings` is returned unchanged |
| Filters.StandingsWithoutLeagues | src/mlb_sportradar_mcp/server.py:150 | a `standings` dict without `leagues` gives back the body unchanged |
| Filters.StandingsNoMatch | src/mlb_sportradar_mcp/server.py:151-155 | on a standings-shaped body, when no entry's alias equals the upper-cased league, the body is returned unchanged |
| Filters.StandingsShapedNeverFails | src/mlb_sportradar_mcp/server.py:147-155 | on a standings-shaped body (dict entries, string aliases or none) the filter never raises and returns either the body or `{league: e}` for an entry `e` of `leagues` |
| Filters.NoErrorOnReadable | src/mlb_sportradar_mcp/server.py:151-152 | the search cannot raise when every entry is a dict whose alias is a string or missing |
| Filters.StandingsNullAliasRaises | src/mlb_sportradar_mcp/server.py:152 | an entry with `alias: null` makes the filter raise AttributeError instead of falling back |
| Filters.StandingsExample | src/mlb_sportradar_mcp/server.py:148-155 | leagues AL and NL with `league="al"` give the AL entry; `league="XX"` gives back the body |
| Filters.FilterLeaders | src/mlb_sportradar_mcp/server.py:199-209 | the loop building `filtered_leaders` computes exactly `LeadersFilter`: the guard, `in`, `[]`, `.items()`, the kept members, and the fallback when none is kept |
| Filters.KeepMatchingMembers | src/mlb_sportradar_mcp/server.py:203-205 | a member is kept if and only if it is a member of `leaders` whose lower-cased key contains the lower-cased category |
| Filters.KeepMatchingOrdered | src/mlb_sportradar_mcp/server.py:202-205 | the kept members appear in their original relative order |
| Filters.SubsequenceOfTail | src/mlb_sportradar_mcp/server.py:203-205 | a subsequence of the tail of the members is a subsequence of all of them (a step of the ordering proof) |
| Filters.KeepMatchingLookup | src/mlb_sportradar_mcp/server.py:204-205 | looking a key up in the filtered dict gives its original value if the key matches, and nothing otherwise |
| Filters.KeepMatchingUnique | src/mlb_sportradar_mcp/server.py:202-205 | filtering a dict with distinct keys yields a dict with distinct keys |
| Filters.LeadersUnfiltered | src/mlb_sportradar_mcp/server.py:200 | a category that is absent, empty, or not hitting/pitching in any case leaves the body unchanged |
| Filters.LeadersMatch | src/mlb_sportradar_mcp/server.py:200-207 | when some key matches, the result is `{leaders: kept, category: <the category as supplied>}` |
| Filters.LeadersItemsRaises | src/mlb_sportradar_mcp/server.py:203 | with a hitting/pitching category, a `leaders` value that is not a dict makes `.items()` raise AttributeError instead of falling back |
| Filters.LeadersShapedNeverFails | src/mlb_sportradar_mcp/server.py:199-209 | when `leaders` is a dict the filter never raises, and returns either the body or `{leaders: kept, category: <the category>}` |
| Filters.LeadersWithoutLeaders | src/mlb_sportradar_mcp/server.py:201 | a dict body without `leaders` is returned unchanged |
| Filters.LeadersNoMatch | src/mlb_sportradar_mcp/server.py:206-209 | when no key of `leaders` contains the category, the body is returned unchanged |
| Filters.ExampleKeys | src/mlb_sportradar_mcp/server.py:204 | `"pitching"` occurs in `"pitching_era"` and not in `"hitting_avg"` |
| Filters.LeadersExample | src/mlb_sportradar_mcp/server.py:199-207 | `hitting_avg` and `pitching_era` with `category="pitching"` keep only `pitching_era` |
| Json.Keys | src/mlb_sportradar_mcp/server.py:150 | the keys of a dict are its members' first components, in order |
| Json.LookupFound | src/mlb_sportradar_mcp/server.py:150 | `data[key]` finds a value if and only if `key in data` |
| Text.ContainsIff | src/mlb_sportradar_mcp/server.py:204 | Python's substring test holds if and only if the needle occurs at some index |
| Text.IndexOf | src/mlb_sportradar_mcp/server.py:97 | the position of the first separator: no separator before it, and the separator at it when there is one |
| Text.SplitCons | src/mlb_sportradar_mcp/server.py:97 | splitting `x + sep + rest`, where `x` has no separator, gives `[x]` followed by the split of `rest` |
| Text.SplitSeparated | src/mlb_sportradar_mcp/server.py:97 | no part of a split contains the separator |
| Text.JoinSplit | src/mlb_sportradar_mcp/server.py:97 | joining the parts of a split gives back the string |
| Text.SplitJoin | src/mlb_sportradar_mcp/server.py:97 | splitting a join of separator-free parts gives back the parts |
| Text.SplitAppend | src/mlb_sportradar_mcp/server.py:97 | splitting `a + sep + b` gives the parts of `a`, then the parts of `b` |
| Decimal.NatToStringDigits | src/mlb_sportradar_mcp/server.py:142 | the decimal text of `n` is a non-empty digit string whose value is `n` |
| Decimal.NoSeparatorInDigits | src/mlb_sportradar_mcp/server.py:92 | the decimal text of a natural number contains neither `-` nor `/` |
| Decimal.ParseIntToString | src/mlb_sportradar_mcp/server.py:142 | the parser recovers every integer from its f-string rendering, negative ones included |
| Decimal.NoSlashInInt | src/mlb_sportradar_mcp/server.py:142 | an integer's rendering never contains `/` |
| Decimal.Pad2Digits | src/mlb_sportradar_mcp/server.py:92 | `%m` and `%d` produce two characters, with no `-` or `/` |
| Decimal.FormatDateSplit | src/mlb_sportradar_mcp/server.py:92-98 | splitting today's `%Y-%m-%d` on `-` gives the year, the padded month and the padded day |
| Decimal.FourDigitYear | src/mlb_sportradar_mcp/server.py:92 | a year from 1000 to 9999 renders as four digits |
| Paths.SplitAfter | src/mlb_sportradar_mcp/server.py:100 | splitting a rooted path on `/` gives its segments back after the leading part |
| Paths.JoinRooted | src/mlb_sportradar_mcp/server.py:100 | a rooted path is the `/`-join of its segments behind an empty first part |
| Paths.SafeSegments | src/mlb_sportradar_mcp/server.py:100-354 | when no identifier contains `/`, no template segment does |
| Paths.SafeGameSegments | src/mlb_sportradar_mcp/server.py:100-255 | the same for the `/en/games/...` templates (lines 100, 112, 124, 243, 255) |
| Paths.SafeSeasonSegments | src/mlb_sportradar_mcp/server.py:142-274 | the same for the `/en/seasons/...` templates (lines 142, 195, 274) |
| Paths.SafePlayerSegments | src/mlb_sportradar_mcp/server.py:165-354 | the same for the `/en/players/...` templates (lines 165, 292, 354) |
| Paths.SafeTeamSegments | src/mlb_sportradar_mcp/server.py:177-219 | the same for the `/en/teams/...` templates (lines 177, 219) |
| Paths.SafeLeagueSegments | src/mlb_sportradar_mcp/server.py:231-335 | the same for the injuries and `/en/league/...` templates (lines 231, 308-310, 323, 335) |
| Paths.RouteSegmentsOf | src/mlb_sportradar_mcp/server.py:100-354 | the router maps every template's segments back to the resource |
| Paths.RouteGameOf | src/mlb_sportradar_mcp/server.py:100-255 | the game templates (lines 100, 112, 124, 243, 255) route back to their resource |
| Paths.RouteSeasonOf | src/mlb_sportradar_mcp/server.py:142-274 | the season templates (lines 142, 195, 274) route back to their resource |
| Paths.RoutePlayerOf | src/mlb_sportradar_mcp/server.py:165-354 | the player templates (lines 165, 292, 354) route back to their resource |
| Paths.RouteTeamOf | src/mlb_sportradar_mcp/server.py:177-219 | the team templates (lines 177, 219) route back to their resource |
| Paths.RouteLeagueOf | src/mlb_sportradar_mcp/server.py:308-335 | the league templates (lines 308-310, 323, 335) route back to their resource |
| Paths.RouteRooted | src/mlb_sportradar_mcp/server.py:100-354 | routing a rooted `/en/...` path is routing its segments |
| Paths.RoutePath | src/mlb_sportradar_mcp/server.py:100-354 | for a resource whose identifiers contain no `/`, the router recovers it from its path |
| Paths.SeasonExact | src/mlb_sportradar_mcp/server.py:142 | a season segment the router accepts is exactly the rendering of the year it yields |
| Paths.RouteSegmentsExact | src/mlb_sportradar_mcp/server.py:100-354 | segments the router accepts are exactly the template segments of the resource it yields |
| Paths.RouteGameExact | src/mlb_sportradar_mcp/server.py:100-255 | this holds for the game templates (lines 100, 112, 124, 243, 255) |
| Paths.RouteSeasonExact | src/mlb_sportradar_mcp/server.py:142-274 | this holds for the season templates (lines 142, 195, 274) |
| Paths.RoutePlayerExact | src/mlb_sportradar_mcp/server.py:165-354 | this holds for the player templates (lines 165, 292, 354) |
| Paths.RouteTeamExact | src/mlb_sportradar_mcp/server.py:177-219 | this holds for the team templates (lines 177, 219) |
| Paths.RouteLeagueExact | src/mlb_sportradar_mcp/server.py:308-335 | this holds for the league templates (lines 308-310, 323, 335) |
| Paths.PathRoute | src/mlb_sportradar_mcp/server.py:100-354 | every path the router accepts is exactly the path of the resource it returns, and that resource has no `/` in its identifiers |
| Paths.RootedAppend | src/mlb_sportradar_mcp/server.py:308 | the rooted path of two segment lists joined is the two rooted paths concatenated |
| Paths.RootedSlash | src/mlb_sportradar_mcp/server.py:308 | a segment holding a `/` renders exactly like the two segments on either side of it |
| Paths.UnescapedCollision | src/mlb_sportradar_mcp/server.py:306-308 | identifiers are substituted without escaping: two different dated-transactions requests, with the `/` in the year or in the month, give the same path |
| Paths.RootedFour | src/mlb_sportradar_mcp/server.py:112 | a four-segment rooted path, written out |
| Paths.GameSummaryPathExample | src/mlb_sportradar_mcp/server.py:112 | game `660001` gives `/en/games/660001/summary.json` |
| Paths.StandingsPathExample | src/mlb_sportradar_mcp/server.py:142 | season 2024 gives `/en/seasons/2024/standings.json` |
| Tools.ScheduleParts | src/mlb_sportradar_mcp/server.py:97-100 | a given date requests `/en/games/{p0}/{p1}/{p2}/schedule.json` from its first three `-` parts, or raises IndexError when there are fewer |
| Tools.ScheduleIgnoresExtraParts | src/mlb_sportradar_mcp/server.py:97-98 | parts after the third are ignored |
| Tools.ScheduleDefaultsToToday | src/mlb_sportradar_mcp/server.py:91-100 | without a date, the schedule of today's year, padded month and padded day is requested and nothing raises |
| Tools.TransactionsPaths | src/mlb_sportradar_mcp/server.py:304-310 | an absent or empty date requests recent transactions; any other date is split as for the schedule |
| Tools.YearDefaults | src/mlb_sportradar_mcp/server.py:137-354 | for every other argument, standings (lines 137-142), leaders (190-195), team statistics (269-274), player statistics (287-292) and splits (349-354) use the given year, or the current year when it is `None` |
| Tools.SeasonalStatisticsDefaults | src/mlb_sportradar_mcp/server.py:266-274 | the default season type is `REG`; an explicit `None` is rendered as the text `None` in the path |
| Tools.LeadersDefaultCategory | src/mlb_sportradar_mcp/server.py:187-207 | with the category omitted it is `hitting`, the filter guard accepts it, and the handler returns the leaders filter of the body for `hitting` |
| Tools.SeasonalSplitsDefaults | src/mlb_sportradar_mcp/server.py:346-354 | with the default split type, the request is the player's splits for the given or current year |
| Tools.SplitTypeUnused | src/mlb_sportradar_mcp/server.py:343-354 | `split_type` never affects the request |
| Tools.PartsWithoutSlash | src/mlb_sportradar_mcp/server.py:97-98 | the parts (also line 306) of a date without `/` contain no `/` |
| Tools.PartInJoin | src/mlb_sportradar_mcp/server.py:97 | every character of a part occurs in the joined string |
| Tools.ResolveSafe | src/mlb_sportradar_mcp/server.py:89-354 | a call whose string arguments contain no `/` resolves to a resource whose identifiers contain none |
| Tools.ScheduleSafe | src/mlb_sportradar_mcp/server.py:91-100 | that property for the schedule |
| Tools.TransactionsSafe | src/mlb_sportradar_mcp/server.py:304-310 | that property for transactions |
| Tools.RequestRoutesBack | src/mlb_sportradar_mcp/server.py:89-354 | the path a `/`-free call requests routes back to the resource it resolved to |
| Tools.UpstreamFailurePropagates | src/mlb_sportradar_mcp/server.py:100-105 | an HTTP status, transport or decode failure is re-raised unchanged |
| Tools.RequestFailurePropagates | src/mlb_sportradar_mcp/server.py:97-105 | an exception raised before a request is re-raised unchanged |
| Tools.UnfilteredPassThrough | src/mlb_sportradar_mcp/server.py:112-114 | every tool except standings and leaders returns the decoded body as is |
| Tools.FilteredTools | src/mlb_sportradar_mcp/server.py:145-209 | standings (lines 145-155) and leaders (lines 197-209) return their filter applied to the decoded body, with filter exceptions re-raised |
| Tools.GameSummaryExample | src/mlb_sportradar_mcp/server.py:108-112 | `get_game_summary("660001")` requests `/en/games/660001/summary.json` |
| Tools.StandingsDefaultExample | src/mlb_sportradar_mcp/server.py:137-142 | `get_standings()` on 2024-07-04 requests `/en/seasons/2024/standings.json` |

## Left out

- HTTP transport (lines 80-86): the base URL, the API key query parameter and the 30-second timeout are not modelled. The whole exchange, including `raise_for_status` and `response.json()`, is the `upstream` function parameter of `Tools.Handle`.
- Async execution, the `async with` client scoping and MCP tool registration (`@mcp.tool()`) are not modelled. They are concurrency and library code.
- Environment loading, the API key check and `main` (lines 67-72, 361-378) are not modelled. They are process start-up.
- Logging in every `except` block is not modelled. It has no effect on results.
- Text.Upper, Text.Lower: ASCII only. Python's Unicode case mapping, including length-changing cases such as `'ß'.upper()`, is not modelled.
- Json: numbers are integers. Floats in a body are never inspected by the filters.
- Decimal.FormatDate: requires a year from 1000 to 9999. For other years `%Y` padding depends on the platform.
- Tools.Resolve: one clock value stands for both `date.today()` and `datetime.now().year`. The handler reads the clock once, but calls near midnight or New Year could read different values.
- Filters.FilterStandings: the source evaluates `data['standings']` twice. Both reads give the same value, so the model reads it once.
- Json.Lookup: a dict with repeated keys answers with its first occurrence. Decoded JSON keeps the last, but these dicts have distinct keys (`Filters.KeepMatchingUnique`).
- Argument types are taken as declared. A caller passing, say, a number for `league` is not modelled.
