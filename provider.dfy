/** `PandaScoreProvider` (src/debug_pandascore.py): the provider whose
    `get_upcoming_odds` and `get_live_odds` the engine calls. The HTTP exchange itself
    is not modelled: a fetch is given the response it received. */
module Provider {

  import opened Base
  import opened Text

  /** The `odds` value of one entry of a market's `results`; `None` when the key is
      missing or null. */
  type Price = Option<real>

  /** A value of a match's odds dictionary: a bare price, or a nested dictionary of
      sides (`{'team1': .., 'team2': ..}`, `{'over': .., 'under': ..}`, or a dictionary
      keyed by team name). */
  datatype Quote = Single(price: Price) | Sides(sides: Dict<Price>)

  /** A match's odds dictionary, keyed by canonical market name. */
  type Odds = Dict<Quote>

  /** The JSON of the feed, with a missing key as `None` (or as an empty list). */
  datatype RawMarket = RawMarket(marketName: Option<string>, results: seq<Price>)
  datatype RawTeam = RawTeam(name: Option<string>)
  datatype RawOpponent = RawOpponent(opponent: Option<RawTeam>)
  datatype RawLeague = RawLeague(name: Option<string>, slug: Option<string>)
  datatype RawMatch = RawMatch(opponents: seq<RawOpponent>, league: Option<RawLeague>,
                               beginAt: Option<string>, odds: seq<RawMarket>)

  /** A match in the bot's own format, as `_format_matches` builds it. */
  datatype MatchRecord = MatchRecord(matchName: string, league: string, leagueSlug: string,
                                     status: string, beginAt: Option<string>, odds: Odds)

  /** The settings the constructor reads. */
  datatype ProviderConfig = ProviderConfig(apiToken: Option<string>, baseUrl: Option<string>,
                                           game: string, monitoredLeagues: seq<string>)

  // ---------------------------------------------------------------- constructor

  /** `[l.strip().lower() for l in leagues.split(",")]`. */
  function ParseLeagues(setting: string): (leagues: seq<string>)
    ensures |leagues| >= 1
  {
    var parts := Split(setting, ",");
    seq(|parts|, i requires 0 <= i < |parts| => Lower(Strip(parts[i])))
  }

  /** `PandaScoreProvider.__init__`, reading the environment `env`. */
  function NewProvider(env: map<string, string>): (p: ProviderConfig)
    ensures p.monitoredLeagues != []
  {
    ProviderConfig(Lookup(env, "PANDASCORE_TOKEN"), Lookup(env, "PANDASCORE_BASE"),
                   GetOr(Lookup(env, "PANDASCORE_GAME"), "lol"),
                   ParseLeagues(GetOr(Lookup(env, "MONITORED_LEAGUES"), "lck,lpl,lec,lcs")))
  }

  /** An empty setting does not switch the league filter off: it is the list `[""]`. */
  lemma EmptySettingFilters()
    ensures ParseLeagues("") == [""]
  {
    assert IndexOf("", ",") == None;
  }

  /** A slug the constructor could have produced: trimmed, lower-case, without a comma. */
  predicate CanonicalSlug(l: string)
  {
    Strip(l) == l && Lower(l) == l && ',' !in l
  }

  /** Joining canonical slugs with commas and parsing the result gives them back. */
  lemma ReparseCanonical(leagues: seq<string>)
    requires leagues != []
    requires forall k :: 0 <= k < |leagues| ==> CanonicalSlug(leagues[k])
    ensures ParseLeagues(Join(leagues, ",")) == leagues
  {
    SplitJoin(leagues, ',');
  }

  /** Every list the constructor produces is made of canonical slugs. */
  lemma ParsedAreCanonical(setting: string)
    ensures forall k :: 0 <= k < |ParseLeagues(setting)| ==> CanonicalSlug(ParseLeagues(setting)[k])
  {
    var parts := Split(setting, ",");
    SplitPiecesFree(setting, ',');
    forall k | 0 <= k < |parts| ensures CanonicalSlug(Lower(Strip(parts[k]))) {
      CanonicalPiece(parts[k]);
    }
  }

  /** Stripping and lower-casing a piece without a comma gives a canonical slug. */
  lemma CanonicalPiece(piece: string)
    requires ',' !in piece
    ensures CanonicalSlug(Lower(Strip(piece)))
  {
    StrippedStaysStripped(piece);
    LowerIdempotent(Strip(piece));
    StripKeepsNoComma(piece);
    LowerKeepsComma(Strip(piece));
  }

  lemma StrippedStaysStripped(piece: string)
    ensures Strip(Lower(Strip(piece))) == Lower(Strip(piece))
  {
    StripIdempotent(piece);
    StripLower(Strip(piece));
  }

  lemma StripKeepsNoComma(piece: string)
    requires ',' !in piece
    ensures ',' !in Strip(piece)
  {
  }

  lemma LowerKeepsComma(t: string)
    requires ',' !in t
    ensures ',' !in Lower(t)
  {
  }

  /** The `filter[league_slug]` value re-parses to the monitored list itself. */
  lemma FilterReparses(setting: string)
    ensures ParseLeagues(Join(ParseLeagues(setting), ",")) == ParseLeagues(setting)
  {
    ParsedAreCanonical(setting);
    ReparseCanonical(ParseLeagues(setting));
  }

  // ---------------------------------------------------------------- _extract_odds

  /** The rules of `_extract_odds`, in the order it tries them. */
  datatype Rule = MoneyLine | FirstBlood | Kills(hasLine: bool) | Objective | NoRule

  /** The first rule whose test the lower-cased market name passes. */
  function Classify(name: string): Rule
  {
    if Contains(name, "winner") && Contains(name, "2-way") then MoneyLine
    else if Contains(name, "first blood") then FirstBlood
    else if Contains(name, "kills") || Contains(name, "kill") then Kills(NumberToken(name).Some?)
    else if Contains(name, "tower") || Contains(name, "dragon") || Contains(name, "baron")
            || Contains(name, "inhibitor") then Objective
    else NoRule
  }

  function MarketName(m: RawMarket): string
  {
    Lower(GetOr(m.marketName, ""))
  }

  /** `{k1: results[0], k2: results[1]}`. */
  function TwoSided(k1: string, k2: string, results: seq<Price>): Quote
    requires |results| >= 2
  {
    Sides([Entry(k1, results[0]), Entry(k2, results[1])])
  }

  function KillsKey(name: string): string
  {
    "Kills" + Title(Remove(name, ' '))
  }

  function ObjectiveKey(name: string): string
  {
    Title(Remove(Remove(name, ' '), '-'))
  }

  /** The dictionary entry one market contributes, if any. */
  function MarketEntry(m: RawMarket): (r: Option<Entry<Quote>>)
    ensures r.Some? ==> m.results != []
  {
    var name, rs := MarketName(m), m.results;
    if rs == [] then None
    else match Classify(name)
      case MoneyLine => if |rs| >= 2 then Some(Entry("ML", TwoSided("team1", "team2", rs))) else None
      case FirstBlood => if |rs| >= 2 then Some(Entry("FirstBlood", TwoSided("team1", "team2", rs))) else None
      case Kills(hasLine) =>
        if hasLine && |rs| >= 2 then Some(Entry(KillsKey(name), TwoSided("over", "under", rs))) else None
      case Objective =>
        if |rs| >= 2 then Some(Entry(ObjectiveKey(name), TwoSided("team1", "team2", rs)))
        else Some(Entry(ObjectiveKey(name), Single(rs[0])))
      case NoRule => None
  }

  /** One turn of the loop of `_extract_odds`. */
  function AddMarket(d: Odds, m: RawMarket): Odds
  {
    match MarketEntry(m)
    case None => d
    case Some(e) => Put(d, e.key, e.value)
  }

  /** The dictionary `_extract_odds` returns for `markets`. */
  function OddsOf(markets: seq<RawMarket>): Odds
  {
    if markets == [] then [] else AddMarket(OddsOf(markets[..|markets| - 1]), markets[|markets| - 1])
  }

  /** `_extract_odds`: loops over the markets and assigns into the dictionary. */
  method ExtractOdds(markets: seq<RawMarket>) returns (odds: Odds)
    ensures odds == OddsOf(markets)
  {
    odds := [];
    for i := 0 to |markets|
      invariant odds == OddsOf(markets[..i])
    {
      odds := ExtractMarket(odds, markets[i]);
      assert markets[..i + 1][..i] == markets[..i];
    }
    assert markets[..|markets|] == markets;
  }

  /** The body of the loop of `_extract_odds`: the rule chain (`Classify`) for one
      market, then the assignment into the dictionary, step by step as the loop does it.
      `MarketEntry` and `AddMarket` state the same step as values; the lemmas about the
      odds dictionary are proved on them, and this method is proved equal to them. */
  method ExtractMarket(odds0: Odds, market: RawMarket) returns (odds: Odds)
    ensures odds == AddMarket(odds0, market)
  {
    odds := odds0;
    var name := Lower(GetOr(market.marketName, ""));
    var results := market.results;
    if results == [] {
      return;
    }
    match Classify(name)
    case MoneyLine =>
      if |results| >= 2 {
        odds := Put(odds, "ML", Sides([Entry("team1", results[0]), Entry("team2", results[1])]));
      }
    case FirstBlood =>
      if |results| >= 2 {
        odds := Put(odds, "FirstBlood", Sides([Entry("team1", results[0]), Entry("team2", results[1])]));
      }
    case Kills(hasLine) =>
      if hasLine && |results| >= 2 {
        var key := "Kills" + Title(Remove(name, ' '));
        odds := Put(odds, key, Sides([Entry("over", results[0]), Entry("under", results[1])]));
      }
    case Objective =>
      var key := Title(Remove(Remove(name, ' '), '-'));
      if |results| >= 2 {
        odds := Put(odds, key, Sides([Entry("team1", results[0]), Entry("team2", results[1])]));
      } else {
        odds := Put(odds, key, Single(results[0]));
      }
    case NoRule =>
  }

  /** The keys of the extracted dictionary are distinct. */
  lemma {:induction false} OddsDistinct(markets: seq<RawMarket>)
    ensures DistinctKeys(OddsOf(markets))
  {
    if markets != [] {
      OddsDistinct(markets[..|markets| - 1]);
    }
  }

  /** What the last market that produces key `k` contributed. */
  function LastFor(markets: seq<RawMarket>, k: string): Option<Quote>
  {
    if markets == [] then None
    else match MarketEntry(markets[|markets| - 1])
      case Some(e) => if e.key == k then Some(e.value) else LastFor(markets[..|markets| - 1], k)
      case None => LastFor(markets[..|markets| - 1], k)
  }

  /** A later market with the same key overwrites an earlier one: each key holds what
      the last market producing it contributed. */
  lemma {:induction false} OddsLastWins(markets: seq<RawMarket>, k: string)
    ensures Get(OddsOf(markets), k) == LastFor(markets, k)
  {
    if markets != [] {
      OddsLastWins(markets[..|markets| - 1], k);
    }
  }

  /** The dictionary is empty exactly when no market contributes an entry. */
  lemma OddsEmpty(markets: seq<RawMarket>)
    ensures OddsOf(markets) == [] <==> forall k :: 0 <= k < |markets| ==> MarketEntry(markets[k]).None?
  {
    if forall k :: 0 <= k < |markets| ==> MarketEntry(markets[k]).None? {
      OddsNoneEmpty(markets);
    } else {
      var k :| 0 <= k < |markets| && MarketEntry(markets[k]).Some?;
      OddsSomeNonEmpty(markets, k);
    }
  }

  lemma {:induction false} OddsNoneEmpty(markets: seq<RawMarket>)
    requires forall k :: 0 <= k < |markets| ==> MarketEntry(markets[k]).None?
    ensures OddsOf(markets) == []
  {
    if markets != [] {
      var init := markets[..|markets| - 1];
      assert forall k :: 0 <= k < |init| ==> init[k] == markets[k];
      OddsNoneEmpty(init);
      OddsStepEmpty(markets);
    }
  }

  lemma {:induction false} OddsSomeNonEmpty(markets: seq<RawMarket>, k: nat)
    requires k < |markets| && MarketEntry(markets[k]).Some?
    ensures OddsOf(markets) != []
  {
    var init := markets[..|markets| - 1];
    if k < |init| {
      assert init[k] == markets[k];
      OddsSomeNonEmpty(init, k);
      OddsStepEmpty(markets);
    } else {
      OddsLastNonEmpty(markets, k);
    }
  }

  lemma OddsLastNonEmpty(markets: seq<RawMarket>, k: nat)
    requires k + 1 == |markets| && MarketEntry(markets[k]).Some?
    ensures OddsOf(markets) != []
  {
    OddsStepEmpty(markets);
  }

  /** The dictionary after the last market is empty exactly when it was empty before it
      and that market contributes nothing. */
  lemma OddsStepEmpty(markets: seq<RawMarket>)
    requires markets != []
    ensures OddsOf(markets) == [] <==> OddsOf(markets[..|markets| - 1]) == []
                                       && MarketEntry(markets[|markets| - 1]).None?
  {
    AddMarketEmpty(OddsOf(markets[..|markets| - 1]), markets[|markets| - 1]);
  }

  /** One market leaves the dictionary empty exactly when it was empty and the market
      contributes nothing. */
  lemma AddMarketEmpty(d: Odds, m: RawMarket)
    ensures AddMarket(d, m) == [] <==> d == [] && MarketEntry(m).None?
  {
    if MarketEntry(m).Some? {
      var e := MarketEntry(m).value;
      assert Get(AddMarket(d, m), e.key).Some?;
    }
  }

  /** Markets with no results, or whose name passes no rule, add nothing; neither does a
      market that passes a rule needing two results with fewer, even when a later rule
      would have accepted it. */
  lemma MarketAddsNothing(d: Odds, m: RawMarket)
    requires m.results == [] || Classify(MarketName(m)) == NoRule
             || (|m.results| < 2 && Classify(MarketName(m)) in {MoneyLine, FirstBlood, Kills(true)})
             || Classify(MarketName(m)) == Kills(false)
    ensures AddMarket(d, m) == d
  {
  }

  /** Two-sided entries read `results[0]` as team1 (or over) and `results[1]` as team2
      (or under). */
  lemma MarketSides(m: RawMarket)
    requires |m.results| >= 2 && Classify(MarketName(m)) != NoRule && Classify(MarketName(m)) != Kills(false)
    ensures MarketEntry(m).Some? && MarketEntry(m).value.value.Sides?
    ensures var s := MarketEntry(m).value.value.sides;
            s[0].value == m.results[0] && s[1].value == m.results[1] && |s| == 2
            && (s[0].key, s[1].key) == if Classify(MarketName(m)).Kills? then ("over", "under")
                                       else ("team1", "team2")
  {
  }

  /** A kills market's key is found by the engine's test `'kills' in key.lower()` and
      carries a number for its line, and its quote is an over/under dictionary, not a
      bare price. */
  lemma KillsEntryShape(m: RawMarket)
    requires Classify(MarketName(m)).Kills? && MarketEntry(m).Some?
    ensures var e := MarketEntry(m).value;
            Contains(Lower(e.key), "kills") && HasDigit(e.key) && e.value.Sides? && e.value.sides != []
  {
    var name := MarketName(m);
    assert HasDigit(name) by { assert NumberToken(name).Some?; }
    KillsKeyFound(name);
    KillsKeyDigit(name);
  }

  lemma KillsKeyFound(name: string)
    ensures Contains(Lower(KillsKey(name)), "kills")
  {
    var key := KillsKey(name);
    LowerConcat("Kills", Title(Remove(name, ' ')));
    assert StartsWith(Lower(key), "kills");
  }

  lemma KillsKeyDigit(name: string)
    requires HasDigit(name)
    ensures HasDigit(KillsKey(name))
  {
    var key := KillsKey(name);
    var body := Title(Remove(name, ' '));
    RemoveKeepsDigits(name, ' ');
    TitleKeepsDigits(Remove(name, ' '));
    var j :| 0 <= j < |body| && IsDigit(body[j]);
    assert key[5 + j] == body[j];
  }

  /** Only the winner rule produces the key `ML`, so the `ML` entry of an extracted
      dictionary is keyed by position (`team1`, `team2`), never by team name. */
  lemma MoneyLineShape(markets: seq<RawMarket>)
    requires HasKey(OddsOf(markets), "ML")
    ensures var q := Get(OddsOf(markets), "ML").value;
            q.Sides? && |q.sides| == 2 && q.sides[0].key == "team1" && q.sides[1].key == "team2"
  {
    OddsLastWins(markets, "ML");
    LastForML(markets);
  }

  /** The last market producing `ML` is a winner market, no later market produces
      `ML`, and its quote has the two positional sides. */
  lemma LastForML(markets: seq<RawMarket>)
    ensures var q := LastFor(markets, "ML");
            q.Some? ==> q.value.Sides? && |q.value.sides| == 2
                        && q.value.sides[0].key == "team1" && q.value.sides[1].key == "team2"
    ensures var q := LastFor(markets, "ML");
            q.Some? ==> exists i :: 0 <= i < |markets| && Classify(MarketName(markets[i])) == MoneyLine
                                    && MarketEntry(markets[i]) == Some(Entry("ML", q.value))
                                    && LastFor(markets[i + 1..], "ML") == None
  {
    var q := LastFor(markets, "ML");
    if q.Some? {
      var i := LastSource(markets, "ML");
      MLEntryIsWinner(markets[i]);
    }
  }

  /** Whether a market contributes an entry under key `k`. */
  predicate ProducesKey(m: RawMarket, k: string)
  {
    MarketEntry(m).Some? && MarketEntry(m).value.key == k
  }

  /** The position of the last market producing key `k`: `LastFor` reads its quote,
      and no market after it produces `k`. */
  lemma {:induction false} LastSource(markets: seq<RawMarket>, k: string) returns (i: nat)
    requires LastFor(markets, k).Some?
    ensures i < |markets| && MarketEntry(markets[i]) == Some(Entry(k, LastFor(markets, k).value))
    ensures LastFor(markets[i + 1..], k) == None
  {
    var init := markets[..|markets| - 1];
    LastForStep(markets, k);
    if ProducesKey(markets[|markets| - 1], k) {
      i := |markets| - 1;
    } else {
      i := LastSource(init, k);
      assert markets[i] == init[i];
      var after := markets[i + 1..];
      assert after[..|after| - 1] == init[i + 1..];
      assert after[|after| - 1] == markets[|markets| - 1];
      LastForStep(after, k);
    }
  }

  /** One step of `LastFor`, phrased by `ProducesKey`. */
  lemma LastForStep(markets: seq<RawMarket>, k: string)
    requires markets != []
    ensures var m, init := markets[|markets| - 1], markets[..|markets| - 1];
            LastFor(markets, k)
            == if ProducesKey(m, k) then Some(MarketEntry(m).value.value) else LastFor(init, k)
  {
  }

  /** Only the winner rule produces the key `ML`, with the positional sides. */
  lemma MLEntryIsWinner(m: RawMarket)
    ensures ProducesKey(m, "ML") ==> Classify(MarketName(m)) == MoneyLine
    ensures ProducesKey(m, "ML") ==> MarketEntry(m).value.value == TwoSided("team1", "team2", m.results)
  {
    if MarketEntry(m).Some? {
      var key := MarketEntry(m).value.key;
      match Classify(MarketName(m))
      case MoneyLine =>
      case FirstBlood => assert key[0] == 'F';
      case Kills(_) => assert key[0] == 'K';
      case Objective => ObjectiveKeyNotML(MarketName(m));
      case NoRule =>
    }
  }

  /** An objective market's key spells a keyword of at least five letters. */
  lemma ObjectiveKeyNotML(name: string)
    requires Lower(name) == name && Classify(name) == Objective
    ensures ObjectiveKey(name) != "ML"
  {
    assert Contains(name, "tower") || Contains(name, "dragon") || Contains(name, "baron")
           || Contains(name, "inhibitor");
    ObjectiveKeyLong(name, ObjectiveWord(name));
  }

  /** The objective word a market name that passes the objective rule contains. */
  function ObjectiveWord(name: string): (w: string)
    requires Contains(name, "tower") || Contains(name, "dragon") || Contains(name, "baron")
             || Contains(name, "inhibitor")
    ensures Contains(name, w) && ' ' !in w && '-' !in w && |w| >= 5
  {
    if Contains(name, "tower") then "tower"
    else if Contains(name, "dragon") then "dragon"
    else if Contains(name, "baron") then "baron"
    else "inhibitor"
  }

  /** The key keeps the objective word, so it is at least as long. */
  lemma ObjectiveKeyLong(name: string, w: string)
    requires Contains(name, w) && ' ' !in w && '-' !in w
    ensures |ObjectiveKey(name)| >= |w|
  {
    ContainsRemove(name, w, ' ');
    ContainsRemove(Remove(name, ' '), w, '-');
    ContainsLength(Remove(Remove(name, ' '), '-'), w);
  }

  // ---------------------------------------------------------------- _format_matches

  function TeamName(o: RawOpponent, default: string): string
  {
    match o.opponent
    case None => default
    case Some(t) => GetOr(t.name, default)
  }

  function LeagueName(m: RawMatch): string
  {
    match m.league
    case None => "Unknown League"
    case Some(l) => GetOr(l.name, "Unknown League")
  }

  function LeagueSlug(m: RawMatch): string
  {
    match m.league
    case None => ""
    case Some(l) => Lower(GetOr(l.slug, ""))
  }

  /** `f"{team1} vs {team2}"`. */
  function MatchString(team1: string, team2: string): string
  {
    team1 + " vs " + team2
  }

  /** The record one raw match turns into, or `None` when it is skipped. */
  function FormatOne(m: RawMatch, status: string, leagues: seq<string>): (r: Option<MatchRecord>)
    ensures r.Some? <==> |m.opponents| >= 2
                         && (leagues == [] || LeagueSlug(m) in leagues)
                         && (OddsOf(m.odds) != [] || status == "upcoming")
    ensures r.Some? ==> r.value.status == status && r.value.odds == OddsOf(m.odds)
                        && r.value.league == LeagueName(m) && r.value.leagueSlug == LeagueSlug(m)
                        && r.value.matchName == MatchString(TeamName(m.opponents[0], "Time A"),
                                                        TeamName(m.opponents[1], "Time B"))
  {
    if |m.opponents| < 2 then None
    else
      var slug := LeagueSlug(m);
      if leagues != [] && slug !in leagues then None
      else
        var odds := OddsOf(m.odds);
        if odds != [] || status == "upcoming" then
          Some(MatchRecord(MatchString(TeamName(m.opponents[0], "Time A"), TeamName(m.opponents[1], "Time B")),
                           LeagueName(m), slug, status, m.beginAt, odds))
        else None
  }

  /** The list `_format_matches` returns. */
  function Formatted(matches: seq<RawMatch>, status: string, leagues: seq<string>): seq<MatchRecord>
  {
    if matches == [] then []
    else
      var init := Formatted(matches[..|matches| - 1], status, leagues);
      match FormatOne(matches[|matches| - 1], status, leagues)
      case None => init
      case Some(r) => init + [r]
  }

  /** `_format_matches`: loops over the matches, appending the records it keeps. */
  method FormatMatches(matches: seq<RawMatch>, status: string, leagues: seq<string>)
    returns (formatted: seq<MatchRecord>)
    ensures formatted == Formatted(matches, status, leagues)
  {
    formatted := [];
    for i := 0 to |matches|
      invariant formatted == Formatted(matches[..i], status, leagues)
    {
      var m := matches[i];
      assert matches[..i + 1][..i] == matches[..i];
      if |m.opponents| >= 2 {
        var team1 := TeamName(m.opponents[0], "Time A");
        var team2 := TeamName(m.opponents[1], "Time B");
        var leagueName := LeagueName(m);
        var slug := LeagueSlug(m);
        if !(leagues != [] && slug !in leagues) {
          var odds := ExtractOdds(m.odds);
          if odds != [] || status == "upcoming" {
            formatted := formatted + [MatchRecord(team1 + " vs " + team2, leagueName, slug, status, m.beginAt, odds)];
          }
        }
      }
    }
    assert matches[..|matches|] == matches;
  }

  /** Formatting works match by match: the records of a concatenation are the records
      of each part, in order. */
  lemma {:induction false} FormattedConcat(a: seq<RawMatch>, b: seq<RawMatch>, status: string, leagues: seq<string>)
    ensures Formatted(a + b, status, leagues) == Formatted(a, status, leagues) + Formatted(b, status, leagues)
    decreases |b|
  {
    if b == [] {
      assert a + b == a;
    } else {
      var b' := b[..|b| - 1];
      assert (a + b)[..|a + b| - 1] == a + b';
      FormattedConcat(a, b', status, leagues);
    }
  }

  /** Formatting never adds records, and every record it keeps is in a monitored league
      (when there is a list), has odds unless the status is `upcoming`, and carries the
      requested status. */
  lemma {:induction false} FormattedKept(matches: seq<RawMatch>, status: string, leagues: seq<string>)
    ensures |Formatted(matches, status, leagues)| <= |matches|
    ensures forall r :: r in Formatted(matches, status, leagues) ==>
              r.status == status && (leagues == [] || r.leagueSlug in leagues)
              && (r.odds != [] || status == "upcoming")
  {
    if matches != [] {
      FormattedKept(matches[..|matches| - 1], status, leagues);
    }
  }

  /** A match with a single opponent, or from a league outside the list, yields nothing. */
  lemma FormattedDrops(m: RawMatch, status: string, leagues: seq<string>)
    requires |m.opponents| < 2 || (leagues != [] && LeagueSlug(m) !in leagues)
    ensures Formatted([m], status, leagues) == []
  {
  }

  // ---------------------------------------------------------------- fetch

  /** What one `client.get` produced: a response with its status code and, when its body
      reads as a list of matches, that list; or one of the exceptions. */
  datatype Outcome = Response(code: int, body: Option<seq<RawMatch>>) | Timeout | OtherError

  /** The request `_fetch_matches_by_status` sends: its URL and its query parameters. */
  datatype Request = Request(url: string, params: Dict<Option<string>>)

  function BuildRequest(p: ProviderConfig, status: string): (r: Request)
    ensures HasKey(r.params, "filter[league_slug]") <==> p.monitoredLeagues != []
  {
    var url := GetOr(p.baseUrl, "None") + "/" + p.game + "/matches/" + status;
    var params := [Entry("sort", Some("begin_at")), Entry("per_page", Some("25")), Entry("token", p.apiToken)];
    var filter := Join(p.monitoredLeagues, ",");
    Request(url, if p.monitoredLeagues != [] then Put(params, "filter[league_slug]", Some(filter)) else params)
  }

  /** A provider built from any environment always sends the league filter, and the
      filter's value parses back to the monitored list. */
  lemma RequestFilters(env: map<string, string>, status: string)
    ensures var p := NewProvider(env);
            Get(BuildRequest(p, status).params, "filter[league_slug]") == Some(Some(Join(p.monitoredLeagues, ",")))
            && ParseLeagues(Join(p.monitoredLeagues, ",")) == p.monitoredLeagues
  {
    FilterReparses(GetOr(Lookup(env, "MONITORED_LEAGUES"), "lck,lpl,lec,lcs"));
  }

  /** The list `_fetch_matches_by_status` returns for the outcome of its request. */
  function FetchResult(o: Outcome, status: string, leagues: seq<string>): seq<MatchRecord>
  {
    match o
    case Timeout => []
    case OtherError => []
    case Response(code, body) =>
      if code == 400 || code == 403 || code == 404 then []
      else if !(200 <= code < 300) then []      // raise_for_status
      else match body
        case None => []                       // response.json() is not a list of matches
        case Some(ms) => Formatted(ms, status, leagues)
  }

  /** Only a 2xx response with a readable body yields matches; 400, 403, 404, any other
      status, a timeout or any other exception yields the empty list. */
  lemma FetchFailuresEmpty(o: Outcome, status: string, leagues: seq<string>)
    requires !(o.Response? && 200 <= o.code < 300 && o.body.Some?)
    ensures FetchResult(o, status, leagues) == []
  {
  }

  /** A successful fetch returns exactly the formatted records of the body. */
  lemma FetchSuccess(code: int, ms: seq<RawMatch>, status: string, leagues: seq<string>)
    requires 200 <= code < 300
    ensures FetchResult(Response(code, Some(ms)), status, leagues) == Formatted(ms, status, leagues)
  {
  }

  // ---------------------------------------------------------------- get_live_odds

  /** `[match for match in all_matches if match.get('odds')]`. */
  function WithOdds(ms: seq<MatchRecord>): (r: seq<MatchRecord>)
    ensures |r| <= |ms|
  {
    if ms == [] then [] else
      var rest := WithOdds(ms[1..]);
      if ms[0].odds != [] then [ms[0]] + rest else rest
  }

  /** `get_live_odds`: the running matches, then the recent ones, keeping those that
      have odds. */
  function LiveOdds(running: seq<MatchRecord>, recent: seq<MatchRecord>): seq<MatchRecord>
  {
    WithOdds(running + recent)
  }

  /** The filter keeps exactly the matches with a non-empty odds dictionary. */
  lemma {:induction false} WithOddsMembers(ms: seq<MatchRecord>)
    ensures forall r :: r in WithOdds(ms) <==> r in ms && r.odds != []
  {
    if ms != [] {
      WithOddsMembers(ms[1..]);
      assert ms == [ms[0]] + ms[1..];
    }
  }

  /** The filter keeps the order: the running matches come before the recent ones. */
  lemma {:induction false} WithOddsConcat(a: seq<MatchRecord>, b: seq<MatchRecord>)
    ensures WithOdds(a + b) == WithOdds(a) + WithOdds(b)
  {
    if a != [] {
      assert (a + b)[1..] == a[1..] + b;
      WithOddsConcat(a[1..], b);
    } else {
      assert a + b == b;
    }
  }

  lemma LiveOddsOrder(running: seq<MatchRecord>, recent: seq<MatchRecord>)
    ensures LiveOdds(running, recent) == WithOdds(running) + WithOdds(recent)
    ensures forall r :: r in LiveOdds(running, recent) <==> (r in running || r in recent) && r.odds != []
  {
    WithOddsConcat(running, recent);
    WithOddsMembers(running + recent);
  }
}
