/**
 * The two post-fetch filters of the server: the league filter of `get_standings`
 * and the category filter of `get_league_leaders`. Each is a method with the loop
 * the handler runs, proved equal to a specification function, and the properties
 * the handlers promise are lemmas about those functions.
 */
module Filters {
  import opened Results
  import opened Json
  import Text

  // ================================================================ standings league filter

  predicate IsLeagueCode(code: string) {
    code == "AL" || code == "NL"
  }

  /** The guard `league and league.upper() in ['AL', 'NL']`. */
  predicate WantsLeague(league: Option<string>) {
    league.Some? && league.value != "" && IsLeagueCode(Text.Upper(league.value))
  }

  /** `league_data.get('alias', '').upper()`. */
  function AliasOf(entry: Json): Result<string, PyError> {
    var alias :- Get(entry, "alias", JStr(""));
    UpperOf(alias)
  }

  /** The loop over the league list: the first entry whose alias matches, with early return. */
  function FindLeague(entries: seq<Json>, code: string): Result<Option<Json>, PyError>
    decreases |entries|
  {
    if entries == [] then Ok(None)
    else
      var alias :- AliasOf(entries[0]);
      if alias == code then Ok(Some(entries[0])) else FindLeague(entries[1..], code)
  }

  /** What `get_standings` returns for a decoded body `data`, or the exception it raises. */
  function StandingsFilter(data: Json, league: Option<string>): Result<Json, PyError> {
    if !WantsLeague(league) then Ok(data)
    else
      var hasStandings :- In("standings", data);
      if !hasStandings then Ok(data)
      else
        var standings :- Subscript(data, "standings");
        var hasLeagues :- In("leagues", standings);
        if !hasLeagues then Ok(data)
        else
          var leagues :- Subscript(standings, "leagues");
          var entries :- Iterate(leagues);
          var found :- FindLeague(entries, Text.Upper(league.value));
          if found.Some? then Ok(JObject([("league", found.value)])) else Ok(data)
  }

  /** The filter block of `get_standings`, loop and early return included. */
  method FilterStandings(data: Json, league: Option<string>) returns (r: Result<Json, PyError>)
    ensures r == StandingsFilter(data, league)
  {
    if WantsLeague(league) {
      var hasStandings :- In("standings", data);
      if hasStandings {
        var standings :- Subscript(data, "standings");
        var hasLeagues :- In("leagues", standings);
        if hasLeagues {
          var leagues :- Subscript(standings, "leagues");
          var entries :- Iterate(leagues);
          var code := Text.Upper(league.value);
          var i := 0;
          while i < |entries|
            invariant 0 <= i <= |entries|
            invariant FindLeague(entries[i..], code) == FindLeague(entries, code)
          {
            assert entries[i..][0] == entries[i] && entries[i..][1..] == entries[i + 1..];
            var alias :- AliasOf(entries[i]);
            if alias == code {
              return Ok(JObject([("league", entries[i])]));
            }
            i := i + 1;
          }
        }
      }
    }
    return Ok(data);
  }

  // ---------------------------------------------------------------- the search, characterised

  /** The loop looks at `entry` and moves on: its alias is a string not equal to `code`. */
  predicate PassesOver(entry: Json, code: string) {
    AliasOf(entry).Ok? && AliasOf(entry).value != code
  }

  /** Entry `i` is the first one whose alias matches, and every earlier one was passed over. */
  ghost predicate FirstMatchAt(entries: seq<Json>, code: string, i: int) {
    0 <= i < |entries| && AliasOf(entries[i]) == Ok(code)
    && forall j :: 0 <= j < i ==> PassesOver(entries[j], code)
  }

  /** The search yields an entry exactly when that entry is the first match. */
  lemma {:induction false} FindLeagueFound(entries: seq<Json>, code: string, e: Json)
    ensures FindLeague(entries, code) == Ok(Some(e)) <==> exists i :: FirstMatchAt(entries, code, i) && entries[i] == e
    decreases |entries|
  {
    if entries != [] {
      FindLeagueFound(entries[1..], code, e);
      if FindLeague(entries, code) == Ok(Some(e)) && AliasOf(entries[0]) != Ok(code) {
        var i :| FirstMatchAt(entries[1..], code, i) && entries[1..][i] == e;
        assert FirstMatchAt(entries, code, i + 1);
      }
      if i :| FirstMatchAt(entries, code, i) && entries[i] == e {
        if i > 0 {
          assert PassesOver(entries[0], code);
          assert FirstMatchAt(entries[1..], code, i - 1);
        }
      }
    }
  }

  /** The search finds nothing exactly when every entry is passed over. */
  lemma {:induction false} FindLeagueNone(entries: seq<Json>, code: string)
    ensures FindLeague(entries, code) == Ok(None) <==> forall j :: 0 <= j < |entries| ==> PassesOver(entries[j], code)
    decreases |entries|
  {
    if entries != [] {
      FindLeagueNone(entries[1..], code);
      assert forall j :: 1 <= j < |entries| ==> entries[j] == entries[1..][j - 1];
    }
  }

  /** The search raises exactly the exception of the first entry it cannot read an alias from. */
  lemma {:induction false} FindLeagueRaises(entries: seq<Json>, code: string, x: PyError)
    ensures FindLeague(entries, code) == Err(x) <==>
      exists i :: 0 <= i < |entries| && AliasOf(entries[i]) == Err(x)
        && forall j :: 0 <= j < i ==> PassesOver(entries[j], code)
    decreases |entries|
  {
    if entries != [] {
      FindLeagueRaises(entries[1..], code, x);
      if FindLeague(entries, code) == Err(x) && AliasOf(entries[0]).Ok? {
        var i :| 0 <= i < |entries[1..]| && AliasOf(entries[1..][i]) == Err(x)
          && forall j :: 0 <= j < i ==> PassesOver(entries[1..][j], code);
        assert forall j :: 1 <= j < i + 1 ==> entries[j] == entries[1..][j - 1];
        assert AliasOf(entries[i + 1]) == Err(x);
      }
      if i :| 0 <= i < |entries| && AliasOf(entries[i]) == Err(x)
              && (forall j :: 0 <= j < i ==> PassesOver(entries[j], code)) {
        if i > 0 {
          assert PassesOver(entries[0], code);
          assert AliasOf(entries[1..][i - 1]) == Err(x);
          assert forall j :: 0 <= j < i - 1 ==> entries[1..][j] == entries[j + 1];
        }
      }
    }
  }

  /** Entries after the first match are never looked at. */
  lemma {:induction false} FindLeagueIgnoresLater(entries: seq<Json>, later: seq<Json>, code: string)
    requires FindLeague(entries, code).Ok? && FindLeague(entries, code).value.Some?
    ensures FindLeague(entries + later, code) == FindLeague(entries, code)
    decreases |entries|
  {
    assert (entries + later)[0] == entries[0];
    if AliasOf(entries[0]) != Ok(code) {
      assert (entries + later)[1..] == entries[1..] + later;
      FindLeagueIgnoresLater(entries[1..], later, code);
    }
  }

  /** An entry without an alias reads as '' and so never matches a league code. */
  lemma MissingAliasPassedOver(fields: seq<(string, Json)>, code: string)
    requires "alias" !in Keys(fields) && IsLeagueCode(code)
    ensures AliasOf(JObject(fields)) == Ok("") && PassesOver(JObject(fields), code)
  {
    LookupFound(fields, "alias");
  }

  // ---------------------------------------------------------------- the standings filter's promises

  /** A body shaped as the standings resource: `standings.leagues` is a list of dicts whose aliases are strings when present. */
  ghost predicate StandingsShaped(data: Json, entries: seq<Json>) {
    && data.JObject?
    && (exists standings ::
          && Lookup(data.fields, "standings") == Some(JObject(standings))
          && Lookup(standings, "leagues") == Some(JArray(entries)))
    && forall j :: 0 <= j < |entries| ==> AliasReadable(entries[j])
  }

  /** A league entry whose alias can be upper-cased: a dict with a string alias or none. */
  ghost predicate AliasReadable(entry: Json) {
    entry.JObject? && (Lookup(entry.fields, "alias").None? || Lookup(entry.fields, "alias").value.JStr?)
  }

  /** Without an AL/NL league argument the body is returned unchanged. */
  lemma StandingsUnfiltered(data: Json, league: Option<string>)
    requires !WantsLeague(league)
    ensures StandingsFilter(data, league) == Ok(data)
  {
  }

  /** Match case: the first entry whose alias matches the upper-cased league, wrapped as `{league: entry}`. */
  lemma StandingsMatch(data: Json, standings: seq<(string, Json)>, entries: seq<Json>, league: Option<string>, i: int)
    requires WantsLeague(league) && data.JObject?
    requires Lookup(data.fields, "standings") == Some(JObject(standings))
    requires Lookup(standings, "leagues") == Some(JArray(entries))
    requires FirstMatchAt(entries, Text.Upper(league.value), i)
    ensures StandingsFilter(data, league) == Ok(JObject([("league", entries[i])]))
  {
    LookupFound(data.fields, "standings");
    LookupFound(standings, "leagues");
    FindLeagueFound(entries, Text.Upper(league.value), entries[i]);
  }

  /** Fallback: a dict body without a `standings` key is returned unchanged. */
  lemma StandingsWithoutStandings(data: Json, league: Option<string>)
    requires data.JObject? && "standings" !in Keys(data.fields)
    ensures StandingsFilter(data, league) == Ok(data)
  {
  }

  /** Fallback: a body whose `standings` dict has no `leagues` key is returned unchanged. */
  lemma StandingsWithoutLeagues(data: Json, standings: seq<(string, Json)>, league: Option<string>)
    requires data.JObject? && Lookup(data.fields, "standings") == Some(JObject(standings))
    requires "leagues" !in Keys(standings)
    ensures StandingsFilter(data, league) == Ok(data)
  {
    LookupFound(data.fields, "standings");
  }

  /** Fallback: a standings-shaped body none of whose aliases is the upper-cased league is returned unchanged. */
  lemma StandingsNoMatch(data: Json, entries: seq<Json>, league: Option<string>)
    requires StandingsShaped(data, entries)
    requires forall j :: 0 <= j < |entries| ==> league.Some? ==> AliasOf(entries[j]).value != Text.Upper(league.value)
    ensures StandingsFilter(data, league) == Ok(data)
  {
    var standings :| Lookup(data.fields, "standings") == Some(JObject(standings))
      && Lookup(standings, "leagues") == Some(JArray(entries));
    LookupFound(data.fields, "standings");
    LookupFound(standings, "leagues");
    if WantsLeague(league) {
      var code := Text.Upper(league.value);
      forall j | 0 <= j < |entries| ensures PassesOver(entries[j], code) {
        assert AliasReadable(entries[j]);
      }
      FindLeagueNone(entries, code);
    }
  }

  /** On a standings-shaped body the filter never raises: it yields the first match or the body itself. */
  lemma StandingsShapedNeverFails(data: Json, entries: seq<Json>, league: Option<string>)
    requires StandingsShaped(data, entries)
    ensures StandingsFilter(data, league).Ok?
    ensures var r := StandingsFilter(data, league).value;
      r == data || exists i :: FirstMatchAt(entries, Text.Upper(league.value), i) && r == JObject([("league", entries[i])])
  {
    var standings :| Lookup(data.fields, "standings") == Some(JObject(standings))
      && Lookup(standings, "leagues") == Some(JArray(entries));
    LookupFound(data.fields, "standings");
    LookupFound(standings, "leagues");
    if WantsLeague(league) {
      var code := Text.Upper(league.value);
      NoErrorOnReadable(entries, code);
      var found := FindLeague(entries, code);
      if found.value.Some? {
        FindLeagueFound(entries, code, found.value.value);
      }
    }
  }

  lemma {:induction false} NoErrorOnReadable(entries: seq<Json>, code: string)
    requires forall j :: 0 <= j < |entries| ==> AliasReadable(entries[j])
    ensures FindLeague(entries, code).Ok?
    decreases |entries|
  {
    if entries != [] {
      assert AliasReadable(entries[0]);
      NoErrorOnReadable(entries[1..], code);
    }
  }

  /** An alias that is JSON null makes `.upper()` raise, so the handler fails instead of falling back. */
  lemma StandingsNullAliasRaises(league: Option<string>)
    requires WantsLeague(league)
    ensures StandingsFilter(
      JObject([("standings", JObject([("leagues", JArray([JObject([("alias", JNull)])]))]))]),
      league) == Err(AttributeError)
  {
  }

  // ================================================================ league-leaders category filter

  predicate IsCategory(c: string) {
    c == "hitting" || c == "pitching"
  }

  /** The guard `category and category.lower() in ['hitting', 'pitching']`. */
  predicate WantsCategory(category: Option<string>) {
    category.Some? && category.value != "" && IsCategory(Text.Lower(category.value))
  }

  /** The members whose lower-cased key contains `needle`, in their original order. */
  function KeepMatching(fields: seq<(string, Json)>, needle: string): seq<(string, Json)>
    decreases |fields|
  {
    if fields == [] then []
    else
      (if Text.Contains(Text.Lower(fields[0].0), needle) then [fields[0]] else [])
      + KeepMatching(fields[1..], needle)
  }

  /** What `get_league_leaders` returns for a decoded body `data`, or the exception it raises. */
  function LeadersFilter(data: Json, category: Option<string>): Result<Json, PyError> {
    if !WantsCategory(category) then Ok(data)
    else
      var hasLeaders :- In("leaders", data);
      if !hasLeaders then Ok(data)
      else
        var leaders :- Subscript(data, "leaders");
        var fields :- Items(leaders);
        var kept := KeepMatching(fields, Text.Lower(category.value));
        if kept != [] then Ok(JObject([("leaders", JObject(kept)), ("category", JStr(category.value))]))
        else Ok(data)
  }

  /** The filter block of `get_league_leaders`, building the filtered dict in a loop. */
  method FilterLeaders(data: Json, category: Option<string>) returns (r: Result<Json, PyError>)
    ensures r == LeadersFilter(data, category)
  {
    if WantsCategory(category) {
      var hasLeaders :- In("leaders", data);
      if hasLeaders {
        var leaders :- Subscript(data, "leaders");
        var fields :- Items(leaders);
        var needle := Text.Lower(category.value);
        var filtered := [];
        var i := 0;
        while i < |fields|
          invariant 0 <= i <= |fields|
          invariant KeepMatching(fields, needle) == filtered + KeepMatching(fields[i..], needle)
        {
          assert fields[i..][0] == fields[i] && fields[i..][1..] == fields[i + 1..];
          var (key, value) := fields[i];
          if Text.Contains(Text.Lower(key), needle) {
            filtered := filtered + [(key, value)];
          }
          i := i + 1;
        }
        assert fields[i..] == [];
        assert KeepMatching(fields, needle) == filtered;
        if filtered != [] {
          return Ok(JObject([("leaders", JObject(filtered)), ("category", JStr(category.value))]));
        }
      }
    }
    return Ok(data);
  }

  // ---------------------------------------------------------------- the kept members, characterised

  /** `a` is `b` with some members left out, the rest in the same order. */
  ghost predicate IsSubsequence(a: seq<(string, Json)>, b: seq<(string, Json)>)
    decreases |b|
  {
    if a == [] then true
    else if b == [] then false
    else (a[0] == b[0] && IsSubsequence(a[1..], b[1..])) || IsSubsequence(a, b[1..])
  }

  /** A member is kept exactly when it is in the original and its lower-cased key contains the needle. */
  lemma {:induction false} KeepMatchingMembers(fields: seq<(string, Json)>, needle: string, p: (string, Json))
    ensures p in KeepMatching(fields, needle) <==> p in fields && Text.Contains(Text.Lower(p.0), needle)
    decreases |fields|
  {
    if fields != [] {
      KeepMatchingMembers(fields[1..], needle, p);
      assert fields == [fields[0]] + fields[1..];
    }
  }

  /** The kept members keep their original relative order. */
  lemma {:induction false} KeepMatchingOrdered(fields: seq<(string, Json)>, needle: string)
    ensures IsSubsequence(KeepMatching(fields, needle), fields)
    decreases |fields|
  {
    if fields != [] {
      var rest := KeepMatching(fields[1..], needle);
      KeepMatchingOrdered(fields[1..], needle);
      if Text.Contains(Text.Lower(fields[0].0), needle) {
        assert ([fields[0]] + rest)[1..] == rest;
      } else {
        assert KeepMatching(fields, needle) == rest;
        SubsequenceOfTail(rest, fields);
      }
    }
  }

  lemma {:induction false} SubsequenceOfTail(a: seq<(string, Json)>, b: seq<(string, Json)>)
    requires b != [] && IsSubsequence(a, b[1..])
    ensures IsSubsequence(a, b)
  {
  }

  /** Sub-map: a key is found in the filtered dict exactly when it matches, and then with its original value. */
  lemma {:induction false} KeepMatchingLookup(fields: seq<(string, Json)>, needle: string, key: string)
    ensures Lookup(KeepMatching(fields, needle), key)
      == if Text.Contains(Text.Lower(key), needle) then Lookup(fields, key) else None
    decreases |fields|
  {
    if fields != [] {
      var rest := KeepMatching(fields[1..], needle);
      KeepMatchingLookup(fields[1..], needle, key);
      if Text.Contains(Text.Lower(fields[0].0), needle) {
        assert ([fields[0]] + rest)[1..] == rest;
      } else {
        assert KeepMatching(fields, needle) == rest;
      }
    }
  }

  /** Filtering a dict yields a dict: no key is repeated. */
  lemma {:induction false} KeepMatchingUnique(fields: seq<(string, Json)>, needle: string)
    requires UniqueKeys(fields)
    ensures UniqueKeys(KeepMatching(fields, needle))
    decreases |fields|
  {
    if fields != [] {
      var rest := KeepMatching(fields[1..], needle);
      KeepMatchingUnique(fields[1..], needle);
      if Text.Contains(Text.Lower(fields[0].0), needle) {
        forall j | 0 <= j < |rest| ensures rest[j].0 != fields[0].0 {
          KeepMatchingMembers(fields[1..], needle, rest[j]);
          var k :| 0 <= k < |fields[1..]| && fields[1..][k] == rest[j];
          assert fields[k + 1] == rest[j];
        }
        var kept := [fields[0]] + rest;
        forall i, j | 0 <= i < j < |kept| ensures kept[i].0 != kept[j].0 {
          if i > 0 {
            assert kept[i] == rest[i - 1] && kept[j] == rest[j - 1];
          } else {
            assert kept[j] == rest[j - 1];
          }
        }
      }
    }
  }

  // ---------------------------------------------------------------- the leaders filter's promises

  /** Without a hitting/pitching category the body is returned unchanged. */
  lemma LeadersUnfiltered(data: Json, category: Option<string>)
    requires !WantsCategory(category)
    ensures LeadersFilter(data, category) == Ok(data)
  {
  }

  /** Match case: the matching members under `leaders`, and the category echoed exactly as supplied. */
  lemma LeadersMatch(data: Json, leaders: seq<(string, Json)>, category: Option<string>)
    requires WantsCategory(category) && data.JObject?
    requires Lookup(data.fields, "leaders") == Some(JObject(leaders))
    requires exists p :: p in leaders && Text.Contains(Text.Lower(p.0), Text.Lower(category.value))
    ensures LeadersFilter(data, category)
      == Ok(JObject([("leaders", JObject(KeepMatching(leaders, Text.Lower(category.value)))),
                     ("category", JStr(category.value))]))
  {
    LookupFound(data.fields, "leaders");
    var p :| p in leaders && Text.Contains(Text.Lower(p.0), Text.Lower(category.value));
    KeepMatchingMembers(leaders, Text.Lower(category.value), p);
  }

  /** A `leaders` value that is not a dict makes `.items()` raise, so the handler fails instead of falling back. */
  lemma LeadersItemsRaises(v: Json, category: Option<string>)
    requires WantsCategory(category) && !v.JObject?
    ensures LeadersFilter(JObject([("leaders", v)]), category) == Err(AttributeError)
  {
  }

  /** When `leaders` is a dict the filter never raises: it yields the kept members or the body itself. */
  lemma LeadersShapedNeverFails(data: Json, leaders: seq<(string, Json)>, category: Option<string>)
    requires data.JObject? && Lookup(data.fields, "leaders") == Some(JObject(leaders))
    ensures LeadersFilter(data, category).Ok?
    ensures var r := LeadersFilter(data, category).value;
      r == data
      || r == JObject([("leaders", JObject(KeepMatching(leaders, Text.Lower(category.value)))),
                       ("category", JStr(category.value))])
  {
    LookupFound(data.fields, "leaders");
  }

  /** Fallback: a dict body without a `leaders` key is returned unchanged. */
  lemma LeadersWithoutLeaders(data: Json, category: Option<string>)
    requires data.JObject? && "leaders" !in Keys(data.fields)
    ensures LeadersFilter(data, category) == Ok(data)
  {
  }

  /** Fallback: when no key of `leaders` contains the category, the body is returned unchanged. */
  lemma LeadersNoMatch(data: Json, leaders: seq<(string, Json)>, category: Option<string>)
    requires data.JObject? && Lookup(data.fields, "leaders") == Some(JObject(leaders))
    requires category.Some?
    requires forall p: (string, Json) :: p in leaders ==> !Text.Contains(Text.Lower(p.0), Text.Lower(category.value))
    ensures LeadersFilter(data, category) == Ok(data)
  {
    LookupFound(data.fields, "leaders");
    var kept := KeepMatching(leaders, Text.Lower(category.value));
    if kept != [] {
      KeepMatchingMembers(leaders, Text.Lower(category.value), kept[0]);
    }
  }

  // ---------------------------------------------------------------- worked examples

  /** Leagues AL and NL with `league="al"` give the AL entry; with `league="XX"` the body is unchanged. */
  lemma StandingsExample(al: seq<(string, Json)>, nl: seq<(string, Json)>)
    requires Lookup(al, "alias") == Some(JStr("AL")) && Lookup(nl, "alias") == Some(JStr("NL"))
    ensures var body := JObject([("standings", JObject([("leagues", JArray([JObject(al), JObject(nl)]))]))]);
      StandingsFilter(body, Some("al")) == Ok(JObject([("league", JObject(al))]))
      && StandingsFilter(body, Some("XX")) == Ok(body)
  {
    var entries := [JObject(al), JObject(nl)];
    assert Text.Upper("al") == "AL" && Text.Upper("AL") == "AL" && Text.Upper("XX") == "XX";
    assert FirstMatchAt(entries, "AL", 0);
    StandingsMatch(
      JObject([("standings", JObject([("leagues", JArray(entries))]))]),
      [("leagues", JArray(entries))], entries, Some("al"), 0);
  }

  /** The case and substring facts the leaders example relies on. */
  lemma ExampleKeys()
    ensures Text.Lower("pitching") == "pitching"
    ensures Text.Contains(Text.Lower("pitching_era"), "pitching")
    ensures !Text.Contains(Text.Lower("hitting_avg"), "pitching")
  {
    assert Text.Lower("pitching") == "pitching";
    assert Text.Lower("hitting_avg") == "hitting_avg";
    assert Text.Lower("pitching_era") == "pitching_era";
    assert Text.Contains("pitching_era", "pitching") by {
      assert "pitching_era"[..8] == "pitching";
    }
    assert !Text.Contains("hitting_avg", "pitching") by {
      assert "hitting_avg"[..8][0] == 'h' && "hitting_avg"[1..] == "itting_avg";
      assert "itting_avg"[..8][0] == 'i' && "itting_avg"[1..] == "tting_avg";
      assert "tting_avg"[..8][0] == 't' && "tting_avg"[1..] == "ting_avg";
      assert "ting_avg"[..8][0] == 't' && "ting_avg"[1..] == "ing_avg";
      assert !Text.Contains("ting_avg", "pitching");
      assert !Text.Contains("tting_avg", "pitching");
      assert !Text.Contains("itting_avg", "pitching");
    }
  }

  /** Leaders `hitting_avg` and `pitching_era` with `category="pitching"` keep only `pitching_era`. */
  lemma LeadersExample(avg: Json, era: Json)
    ensures var body := JObject([("leaders", JObject([("hitting_avg", avg), ("pitching_era", era)]))]);
      LeadersFilter(body, Some("pitching"))
        == Ok(JObject([("leaders", JObject([("pitching_era", era)])), ("category", JStr("pitching"))]))
  {
    ExampleKeys();
    var fields := [("hitting_avg", avg), ("pitching_era", era)];
    assert fields[1..] == [("pitching_era", era)] && fields[1..][1..] == [];
    assert KeepMatching(fields[1..], "pitching") == [("pitching_era", era)];
    assert KeepMatching(fields, "pitching") == [("pitching_era", era)];
    assert WantsCategory(Some("pitching"));
    assert fields[1] in fields;
    LeadersMatch(JObject([("leaders", JObject(fields))]), fields, Some("pitching"));
  }

}
