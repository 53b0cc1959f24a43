/** `OpeningEngine` (src/engine.py): finds value opportunities in a match's odds and
    notifies them, the live cycle suppressing repeats through a cache of fingerprints.
    One iteration of each cycle is modelled; the loops, the sleeps and the concurrent
    scheduling of the two cycles are not. */
module Engine {

  import opened Base
  import opened Text
  import opened FairOdds
  import opened Provider

  /** `{'current': .., 'fair': .., 'edge': ..}`: the edge is a percentage. */
  datatype Opportunity = Opportunity(current: real, fair: real, edge: real)

  type Opportunities = Dict<Opportunity>

  /** The exceptions the scan can raise: subtracting a float from a dictionary, and
      converting a factorial too large for a float. */
  datatype Fault = TypeError | OverflowError

  // ---------------------------------------------------------------- has_edge, calculate_edge

  /** Python's truth value of an odds value: a missing or zero price and an empty
      dictionary are false. */
  predicate Truthy(q: Quote)
  {
    match q
    case Single(p) => p.Some? && p.value != 0.0
    case Sides(d) => d != []
  }

  /** `(market_odd - fair_odd) / fair_odd`. */
  function EdgeRatio(market: real, fair: real): real
    requires fair != 0.0
  {
    (market - fair) / fair
  }

  /** `has_edge(market_odd, fair_odd)`: false when either price is missing or zero,
      otherwise whether the relative edge exceeds the threshold; a dictionary in place of
      the market price raises. */
  function HasEdge(market: Quote, fair: Option<real>, threshold: real): (r: Result<bool, Fault>)
    ensures r == Ok(true) <==> market.Single? && market.price.Some? && market.price.value != 0.0
                               && fair.Some? && fair.value != 0.0
                               && EdgeRatio(market.price.value, fair.value) > threshold
    ensures r.Err? <==> market.Sides? && market.sides != [] && fair.Some? && fair.value != 0.0
  {
    if !Truthy(market) || fair.None? || fair.value == 0.0 then Ok(false)
    else match market
      case Sides(_) => Err(TypeError)
      case Single(p) => Ok(EdgeRatio(p.value, fair.value) > threshold)
  }

  /** Python's `round` to an integer on an exact value: halves go to the even
      neighbour. */
  function RoundHalfEven(x: real): (n: int)
    ensures -0.5 <= n as real - x <= 0.5
    ensures x >= 0.0 ==> n >= 0
    ensures x > 0.5 ==> n >= 1
    ensures (n as real - x == 0.5 || x - n as real == 0.5) ==> n % 2 == 0
  {
    var f := x.Floor;
    var frac := x - f as real;
    if frac > 0.5 then f + 1
    else if frac < 0.5 then f
    else if f % 2 == 0 then f else f + 1
  }

  /** `round(x, 2)`. */
  function Round2(x: real): real
  {
    RoundHalfEven(x * 100.0) as real / 100.0
  }

  /** `calculate_edge`: the edge as a percentage, to two decimals. The rounded value is
      within half a hundredth of the exact one, is never negative for a non-negative
      edge, and is positive once the edge exceeds 1/20000. */
  function CalculateEdge(market: real, fair: real): (r: real)
    requires fair != 0.0
    ensures -0.005 <= r - 100.0 * EdgeRatio(market, fair) <= 0.005
    ensures EdgeRatio(market, fair) >= 0.0 ==> r >= 0.0
    ensures EdgeRatio(market, fair) > 1.0 / 20000.0 ==> r > 0.0
  {
    Round2(EdgeRatio(market, fair) * 100.0)
  }

  /** An opportunity found with a threshold of at least 1/20000 shows a positive edge. */
  lemma EdgePositive(market: real, fair: real, threshold: real)
    requires threshold >= 1.0 / 20000.0
    requires HasEdge(Single(Some(market)), Some(fair), threshold) == Ok(true)
    ensures CalculateEdge(market, fair) > 0.0
  {
  }

  /** With a smaller threshold a flagged opportunity can show an edge of 0.0. */
  lemma EdgeRoundsToZero()
    ensures HasEdge(Single(Some(2.00004)), Some(2.0), 0.00001) == Ok(true)
    ensures CalculateEdge(2.00004, 2.0) == 0.0
  {
    assert EdgeRatio(2.00004, 2.0) == 0.00002;
    assert RoundHalfEven(0.2) == 0;
  }

  /** Quoted 2.00 against fair 1.80: an edge of 11.11%, flagged at a threshold of 0.05
      and not at 0.15. */
  lemma EdgeExample()
    ensures HasEdge(Single(Some(2.0)), Some(1.8), 0.05) == Ok(true)
    ensures HasEdge(Single(Some(2.0)), Some(1.8), 0.15) == Ok(false)
    ensures CalculateEdge(2.0, 1.8) == 11.11
  {
    assert EdgeRatio(2.0, 1.8) == 1.0 / 9.0;
    assert (1.0 / 9.0) * 100.0 * 100.0 == 1111.0 + 1.0 / 9.0;
    assert RoundHalfEven(1111.0 + 1.0 / 9.0) == 1111;
  }

  // ---------------------------------------------------------------- per-league heuristics

  /** `extract_teams`: the stripped pieces of the match string around `" vs "`. */
  function ExtractTeams(matchName: string): (teams: seq<string>)
    ensures |teams| == |Split(matchName, " vs ")|
    ensures forall k :: 0 <= k < |teams| ==> teams[k] == Strip(Split(matchName, " vs ")[k])
  {
    var parts := Split(matchName, " vs ");
    seq(|parts|, i requires 0 <= i < |parts| => Strip(parts[i]))
  }

  /** The base win probability of the first-named team in a league. */
  function BaseProb(league: string): (p: real)
    ensures 0.0 < p < 1.0
    ensures league == "lck" || league == "lpl" ==> p == 0.52
    ensures league == "lec" || league == "lcs" ==> p == 0.48
    ensures league !in ["lck", "lpl", "lec", "lcs"] ==> p == 0.5
  {
    if league in ["lck", "lpl"] then 0.52
    else if league in ["lec", "lcs"] then 0.48
    else 0.5
  }

  /** `calculate_fair_moneyline`: nothing unless the match string has exactly two teams;
      otherwise a fair price for each of the two teams. */
  function FairMoneyline(matchName: string, league: string): (r: Option<map<string, real>>)
    ensures r.Some? <==> |Split(matchName, " vs ")| == 2
    ensures r.Some? ==> r.value.Keys == {ExtractTeams(matchName)[0], ExtractTeams(matchName)[1]}
  {
    var teams := ExtractTeams(matchName);
    if |teams| != 2 then None
    else
      var p := BaseProb(Lower(league));
      Some(map[teams[0] := 1.0 / p][teams[1] := 1.0 / (1.0 - p)])
  }

  /** Each team's fair price is the reciprocal of its win probability, the first-named
      team's coming from the league's base probability, and the two probabilities sum
      to one. When both names are equal the second assignment wins. */
  lemma FairMoneylinePrices(matchName: string, league: string)
    requires FairMoneyline(matchName, league).Some?
    ensures var fair := FairMoneyline(matchName, league).value;
            var teams := ExtractTeams(matchName);
            var p := BaseProb(Lower(league));
            fair[teams[1]] == 1.0 / (1.0 - p)
            && (teams[0] != teams[1] ==> fair[teams[0]] == 1.0 / p
                                         && 1.0 / fair[teams[0]] + 1.0 / fair[teams[1]] == 1.0)
  {
    var p := BaseProb(Lower(league));
    var teams := ExtractTeams(matchName);
    assert FairMoneyline(matchName, league).value == map[teams[0] := 1.0 / p][teams[1] := 1.0 / (1.0 - p)];
    Reciprocal(p);
    Reciprocal(1.0 - p);
  }

  lemma Reciprocal(x: real)
    requires x != 0.0
    ensures 1.0 / (1.0 / x) == x
  {
  }

  /** Quotes {T1: 1.85, Gen.G: 1.95} in the LCK against fair prices 1/0.52 and 1/0.48:
      neither side has an edge. */
  lemma MoneylineExample(t1: string, t2: string)
    requires t1 == "T1" && t2 == "Gen.G"
    ensures FairMoneyline(MatchString(t1, t2), "LCK") == Some(map[t1 := 1.0 / 0.52, t2 := 1.0 / 0.48])
    ensures HasEdge(Single(Some(1.85)), Some(1.0 / 0.52), 0.05) == Ok(false)
    ensures HasEdge(Single(Some(1.95)), Some(1.0 / 0.48), 0.05) == Ok(false)
  {
    TeamsExample(t1, t2);
    LckFair(MatchString(t1, t2), t1, t2);
    NoEdgeExample();
  }

  lemma TeamsExample(t1: string, t2: string)
    requires t1 == "T1" && t2 == "Gen.G"
    ensures ExtractTeams(MatchString(t1, t2)) == [t1, t2]
  {
    NamesExample(t1, t2);
    ExtractTeamsOfMatchString(t1, t2);
  }

  /** In the LCK the first-named team is priced at 1/0.52 and the second at 1/0.48. */
  lemma LckFair(matchName: string, a: string, b: string)
    requires ExtractTeams(matchName) == [a, b]
    ensures FairMoneyline(matchName, "LCK") == Some(map[a := 1.0 / 0.52, b := 1.0 / 0.48])
  {
    FairOfTeams(matchName, "LCK", a, b);
    LckExample();
    assert 1.0 / BaseProb(Lower("LCK")) == 1.0 / 0.52;
    assert 1.0 / (1.0 - BaseProb(Lower("LCK"))) == 1.0 / 0.48;
  }

  lemma LckExample()
    ensures BaseProb(Lower("LCK")) == 0.52 && 1.0 - 0.52 == 0.48
  {
    LowerExample();
  }

  /** A match string with two teams is priced from the league's base probability. */
  lemma FairOfTeams(matchName: string, league: string, a: string, b: string)
    requires ExtractTeams(matchName) == [a, b]
    ensures FairMoneyline(matchName, league)
            == Some(map[a := 1.0 / BaseProb(Lower(league)), b := 1.0 / (1.0 - BaseProb(Lower(league)))])
  {
  }

  lemma NoEdgeExample()
    ensures HasEdge(Single(Some(1.85)), Some(1.0 / 0.52), 0.05) == Ok(false)
    ensures HasEdge(Single(Some(1.95)), Some(1.0 / 0.48), 0.05) == Ok(false)
  {
    assert EdgeRatio(1.85, 1.0 / 0.52) == 1.85 * 0.52 - 1.0;
    assert EdgeRatio(1.95, 1.0 / 0.48) == 1.95 * 0.48 - 1.0;
  }

  lemma LowerExample()
    ensures Lower("LCK") == "lck"
  {
    var l := Lower("LCK");
    assert l[0] == 'l' && l[1] == 'c' && l[2] == 'k';
  }

  /** A match string that splits into two stripped names gives those two teams. */
  lemma TeamsOfSplit(s: string, a: string, b: string)
    requires Split(s, " vs ") == [a, b] && Strip(a) == a && Strip(b) == b
    ensures ExtractTeams(s) == [a, b]
  {
  }

  /** The provider writes a match as `"<team1> vs <team2>"`; the engine reads back the
      same two names when both are stripped, neither contains `" vs "`, and the first
      does not contain `" vs"` either (so the separator cannot start inside it). These
      conditions are sufficient, not necessary: the exact one on the first name is that
      it has no `" vs "` and does not end in `" vs"`. */
  lemma ExtractTeamsOfMatchString(a: string, b: string)
    requires Strip(a) == a && Strip(b) == b
    requires !Contains(a, " vs") && !Contains(b, " vs ")
    ensures ExtractTeams(MatchString(a, b)) == [a, b]
  {
    SplitOfMatchString(a, b);
    TeamsOfSplit(MatchString(a, b), a, b);
  }

  /** Such a match string splits into exactly the two names. */
  lemma SplitOfMatchString(a: string, b: string)
    requires Strip(a) == a && !Contains(a, " vs") && !Contains(b, " vs ")
    ensures Split(MatchString(a, b), " vs ") == [a, b]
  {
    var sep := " vs ";
    var s := MatchString(a, b);
    assert s == a + sep + b;
    SeparatorFirstAt(a, b);
    assert s[..|a|] == a && s[|a| + 4..] == b;
    assert Split(s, sep) == [a] + Split(b, sep);
  }

  /** The first `" vs "` of `a + " vs " + b` is the one between the names. */
  lemma SeparatorFirstAt(a: string, b: string)
    requires Strip(a) == a && !Contains(a, " vs")
    ensures IndexOf(a + " vs " + b, " vs ") == Some(|a|)
  {
    var sep := " vs ";
    var s := a + sep + b;
    assert s[|a|..|a| + 4] == sep;
    assert a != [] ==> !IsSpace(a[|a| - 1]);
    forall j | 0 <= j < |a| ensures !StartsWith(s[j..], sep) {
      NoSeparatorBefore(a, sep + b, j);
    }
    IndexOfAt(s, sep, |a|);
  }

  /** No `" vs "` starts inside a name that has no `" vs"` and no trailing space, when a
      space follows the name. */
  lemma NoSeparatorBefore(a: string, rest: string, j: nat)
    requires a != [] ==> !IsSpace(a[|a| - 1])
    requires !Contains(a, " vs") && rest != [] && rest[0] == ' '
    requires j < |a|
    ensures !StartsWith((a + rest)[j..], " vs ")
  {
    var s := a + rest;
    if j + 3 <= |a| {
      assert !StartsWith(a[j..], " vs");
      assert s[j..][..3] == a[j..][..3];
      assert " vs "[..3] == " vs";
    } else if j + 2 == |a| {
      assert s[j + 2] == ' ';
    } else {
      assert s[j] == a[|a| - 1];
    }
  }

  /** Without the `" vs"` condition the round trip fails: a first name ending in `" vs"`
      (say `"A vs"` against `"B"`, written `"A vs vs B"`) is read back as the name
      without it and `"vs "` glued to the second (`["A", "vs B"]`). */
  lemma MatchStringCounterexample(c: string, b: string)
    requires c != [] && Strip(c) == c && ' ' !in c
    requires b != [] && Strip(b) == b && ' ' !in b
    ensures ExtractTeams(MatchString(c + " vs", b)) == [c, "vs " + b] != [c + " vs", b]
  {
    var s := MatchString(c + " vs", b);
    var rest := "vs " + b;
    CounterSplitOf(c, b);
    assert rest[0] == 'v' && rest[|rest| - 1] == b[|b| - 1];
    StripUnchanged(rest);
    TeamsOfSplit(s, c, rest);
    assert |c| != |c + " vs"|;
  }

  lemma CounterSplitOf(c: string, b: string)
    requires c != [] && ' ' !in c && ' ' !in b
    ensures Split(MatchString(c + " vs", b), " vs ") == [c, "vs " + b]
  {
    var sep := " vs ";
    var s := MatchString(c + " vs", b);
    var n := |c|;
    var t := s[n..];
    assert s[..n] == c && s == c + t;
    assert t[0] == ' ' && t[1] == 'v' && t[2] == 's' && t[3] == ' ';
    assert t[..4] == sep;
    IndexOfAfter(c, t, sep);
    assert s[n + 4..] == t[4..] == "vs " + b;
    NoSeparatorAfterVs(b);
  }

  /** `"vs " + b` holds no `" vs "` when `b` has no space. */
  lemma NoSeparatorAfterVs(b: string)
    requires ' ' !in b
    ensures IndexOf("vs " + b, " vs ") == None
  {
    var t, sep := "vs " + b, " vs ";
    assert t[0] == 'v' && t[1] == 's';
    assert forall k :: 3 <= k < |t| ==> t[k] == b[k - 3];
    forall j | 0 <= j && j + 4 <= |t| ensures !StartsWith(t[j..], sep) {
      if j == 2 {
        assert t[j..][..4][3] == b[2];
      } else {
        assert t[j..][..4][0] == t[j];
      }
    }
    IndexOfNoneAt(t, sep);
  }

  /** A string without whitespace at either end is its own strip. */
  lemma StripUnchanged(s: string)
    requires s != [] && !IsSpace(s[0]) && !IsSpace(s[|s| - 1])
    ensures Strip(s) == s
  {
    assert TrimStart(s) == s;
    assert TrimEnd(s) == s;
  }

  lemma NamesExample(t1: string, t2: string)
    requires t1 == "T1" && t2 == "Gen.G"
    ensures Strip(t1) == t1 && Strip(t2) == t2 && !Contains(t1, " vs") && !Contains(t2, " vs ")
  {
    assert t1[0] == 'T' && t1[1] == '1' && t2[0] == 'G' && t2[4] == 'G';
    StripUnchanged(t1);
    StripUnchanged(t2);
    assert ' ' !in t1 && ' ' !in t2;
    IndexOfNone(t1, " vs");
    IndexOfNone(t2, " vs ");
  }

  /** `estimate_avg_kills`: the league's average kill count. */
  function EstimateAvgKills(league: string): (avg: real)
    ensures avg > 0.0
    ensures Lower(league) == "lck" ==> avg == 28.5
    ensures Lower(league) == "lpl" ==> avg == 32.0
    ensures Lower(league) == "lec" ==> avg == 26.5
    ensures Lower(league) == "lcs" ==> avg == 25.0
    ensures Lower(league) == "worlds" ==> avg == 30.0
    ensures Lower(league) !in ["lck", "lpl", "lec", "lcs", "worlds"] ==> avg == 27.0
  {
    var l := Lower(league);
    if l == "lck" then 28.5
    else if l == "lpl" then 32.0
    else if l == "lec" then 26.5
    else if l == "lcs" then 25.0
    else if l == "worlds" then 30.0
    else 27.0
  }

  /** `extract_line_from_market`: the first number in the market name. */
  function ExtractLine(marketName: string): (line: Option<real>)
    ensures line.Some? <==> HasDigit(marketName)
    ensures line.Some? ==> line.value >= 0.0
  {
    match NumberToken(marketName)
    case None => None
    case Some(t) => Some(DecimalValue(t))
  }

  /** The line of a typical kills market is its first number. */
  lemma LineExample()
    ensures ExtractLine("Total Kills Over 28.5") == Some(28.5)
  {
    LineTokenExample();
    NumberExample();
  }

  lemma LineTokenExample()
    ensures NumberToken("Total Kills Over 28.5") == NumberToken("28.5")
  {
    var s := "Total Kills Over 28.5";
    var p, t := s[..17], s[17..];
    assert t == "28.5";
    assert p == "Total Kills Over ";
    assert s == p + t;
    NoDigitsIn(p);
    NumberTokenAfter(p, t);
  }

  lemma NoDigitsIn(p: string)
    requires p == "Total Kills Over "
    ensures forall k :: 0 <= k < |p| ==> !IsDigit(p[k])
  {
  }

  lemma NumberExample()
    ensures NumberToken("28.5") == Some("28.5") && DecimalValue("28.5") == 28.5
  {
    NumberAtExample();
    DecimalExample();
  }

  lemma NumberAtExample()
    ensures "28.5"[0] == '2' && NumberAt("28.5") == "28.5"
  {
    var t := "28.5";
    DigitRunAt(t, 2);
    DigitRunAt(t[3..], 1);
    assert t[..4] == t;
  }

  lemma DecimalExample()
    ensures DecimalValue("28.5") == 28.5
  {
    var t := "28.5";
    DigitRunAt(t, 2);
    assert t[..2] == "28" && t[3..] == "5";
    DigitsExample();
  }

  lemma DigitsExample()
    ensures DigitsValue("28") == 28 && DigitsValue("5") == 5
  {
    assert "28"[..1] == "2";
    assert DigitsValue("2") == 2;
  }

  /** `if line:` rejects a missing line and a line of zero. */
  predicate LineUsable(line: Option<real>)
  {
    line.Some? && line.value != 0.0
  }

  /** A line is used exactly when the name has a digit and its first number has a
      non-zero digit. */
  lemma LineUsableExactly(marketName: string)
    ensures LineUsable(ExtractLine(marketName))
            <==> NumberToken(marketName).Some? && !ZeroDigits(NumberToken(marketName).value)
  {
    var t := NumberToken(marketName);
    if t.Some? {
      NumberTokenShape(marketName);
      DecimalValueZero(t.value);
    }
  }

  /** The matched token has digits after its point only. */
  lemma {:induction false} NumberTokenShape(s: string)
    requires NumberToken(s).Some?
    ensures var t := NumberToken(s).value;
            forall k :: DigitRun(t) < k < |t| ==> IsDigit(t[k])
  {
    if !IsDigit(s[0]) {
      NumberTokenShape(s[1..]);
    } else {
      var n := DigitRun(s);
      var t := NumberAt(s);
      assert t[..n] == s[..n];
      DigitRunPrefix(s, |t|);
      if n < |s| && s[n] == '.' {
        var m := DigitRun(s[n + 1..]);
        assert forall k :: n < k < |t| ==> t[k] == s[n + 1..][k - n - 1];
      }
    }
  }

  /** The digit run of a prefix that reaches past it is the same. */
  lemma DigitRunPrefix(s: string, len: nat)
    requires DigitRun(s) <= len <= |s|
    ensures DigitRun(s[..len]) == DigitRun(s)
  {
    var n := DigitRun(s);
    DigitRunAt(s[..len], n);
  }

  lemma {:induction false} DigitRunAt(s: string, n: nat)
    requires n <= |s| && (forall k :: 0 <= k < n ==> IsDigit(s[k])) && (n < |s| ==> !IsDigit(s[n]))
    ensures DigitRun(s) == n
  {
    if n > 0 {
      DigitRunAt(s[1..], n - 1);
    }
  }

  // ---------------------------------------------------------------- find_value_opportunities

  /** The fair price of a side in the fair moneyline, if it has one. */
  function FairFor(fair: map<string, real>, team: string): Option<real>
  {
    if team in fair then Some(fair[team]) else None
  }

  /** One turn of the loop over the sides of the `ML` quote. */
  function SideStep(acc: Opportunities, side: Entry<Price>, fair: map<string, real>, threshold: real): Opportunities
  {
    var f := FairFor(fair, side.key);
    if f.Some? && f.value != 0.0 && HasEdge(Single(side.value), f, threshold) == Ok(true) then
      Put(acc, "ML_" + side.key, Opportunity(side.value.value, f.value, CalculateEdge(side.value.value, f.value)))
    else acc
  }

  /** The loop over the sides of the `ML` quote. */
  function ScanSides(acc: Opportunities, sides: Dict<Price>, fair: map<string, real>, threshold: real): Opportunities
  {
    if sides == [] then acc
    else SideStep(ScanSides(acc, sides[..|sides| - 1], fair, threshold), sides[|sides| - 1], fair, threshold)
  }

  /** The `ML` branch of a market turn: the sides are scanned when the match string
      gives a fair moneyline. */
  function MoneylineStep(acc: Opportunities, fairMl: Option<map<string, real>>, sides: Dict<Price>,
                         threshold: real): Opportunities
  {
    match fairMl
    case None => acc
    case Some(fair) => ScanSides(acc, sides, fair, threshold)
  }

  /** The kills branch of a market turn: the quote is compared with the fair over price
      for the line in the market's name. */
  function KillsStep(acc: Opportunities, league: string, e: Entry<Quote>, threshold: real,
                     exp: real -> Positive): Result<Opportunities, Fault>
  {
    var line := ExtractLine(e.key);
    if !LineUsable(line) then Ok(acc)
    else if SumOverflows(line.value) then Err(OverflowError)
    else
      var over := FairOddsFor(EstimateAvgKills(league), line.value, exp).over;
      if over.None? || over.value == 0.0 then Ok(acc)
      else match HasEdge(e.value, over, threshold)
        case Err(f) => Err(f)
        case Ok(edge) =>
          if edge then
            var current := e.value.price.value;
            Ok(Put(acc, e.key + "_OVER", Opportunity(current, over.value, CalculateEdge(current, over.value))))
          else Ok(acc)
  }

  /** One turn of the loop over the markets of a match. */
  function MarketStep(acc: Opportunities, m: MatchRecord, e: Entry<Quote>, threshold: real,
                      exp: real -> Positive): Result<Opportunities, Fault>
  {
    if e.key == "ML" && e.value.Sides? then
      Ok(MoneylineStep(acc, FairMoneyline(m.matchName, m.league), e.value.sides, threshold))
    else if Contains(Lower(e.key), "kills") then KillsStep(acc, m.league, e, threshold, exp)
    else Ok(acc)
  }

  /** The loop over the markets, stopping at the first exception. */
  function ScanMarkets(m: MatchRecord, entries: Odds, threshold: real, exp: real -> Positive): Result<Opportunities, Fault>
  {
    if entries == [] then Ok([])
    else match ScanMarkets(m, entries[..|entries| - 1], threshold, exp)
      case Err(f) => Err(f)
      case Ok(acc) => MarketStep(acc, m, entries[|entries| - 1], threshold, exp)
  }

  /** The loop over the sides of the `ML` quote inside `find_value_opportunities`. */
  method ScanMoneylineSides(opportunities: Opportunities, sides: Dict<Price>, fair: map<string, real>, threshold: real)
    returns (r: Opportunities)
    ensures r == ScanSides(opportunities, sides, fair, threshold)
  {
    r := opportunities;
    for j := 0 to |sides|
      invariant r == ScanSides(opportunities, sides[..j], fair, threshold)
    {
      assert sides[..j + 1][..j] == sides[..j];
      var team, currentOdd := sides[j].key, sides[j].value;
      var fairOdd := FairFor(fair, team);
      if fairOdd.Some? && fairOdd.value != 0.0 {
        var edge := HasEdge(Single(currentOdd), fairOdd, threshold);
        if edge == Ok(true) {
          r := Put(r, "ML_" + team, Opportunity(currentOdd.value, fairOdd.value, CalculateEdge(currentOdd.value, fairOdd.value)));
        }
      }
    }
    assert sides[..|sides|] == sides;
  }

  /** `find_value_opportunities`: loops over the markets, assigning each opportunity it
      finds into a dictionary; the first exception ends the scan. */
  method FindValueOpportunities(m: MatchRecord, threshold: real, exp: real -> Positive)
    returns (r: Result<Opportunities, Fault>)
    ensures r == ScanMarkets(m, m.odds, threshold, exp)
  {
    var opportunities: Opportunities := [];
    var entries := m.odds;
    for i := 0 to |entries|
      invariant ScanMarkets(m, entries[..i], threshold, exp) == Ok(opportunities)
    {
      ScanPrefixStep(m, entries, i, threshold, exp);
      var step := ScanMarket(opportunities, m, entries[i], threshold, exp);
      if step.Err? {
        ScanStaysFaulted(m, entries, i + 1, threshold, exp);
        assert entries[..|entries|] == entries;
        return step;
      }
      opportunities := step.value;
    }
    assert entries[..|entries|] == entries;
    return Ok(opportunities);
  }

  /** The body of the loop of `find_value_opportunities` for one market. */
  method ScanMarket(opportunities: Opportunities, m: MatchRecord, e: Entry<Quote>, threshold: real,
                    exp: real -> Positive)
    returns (r: Result<Opportunities, Fault>)
    ensures r == MarketStep(opportunities, m, e, threshold, exp)
  {
    var marketName, oddsInfo := e.key, e.value;
    if marketName == "ML" && oddsInfo.Sides? {
      var fairMl := FairMoneyline(m.matchName, m.league);
      if fairMl.Some? {
        var found := ScanMoneylineSides(opportunities, oddsInfo.sides, fairMl.value, threshold);
        return Ok(found);
      }
      return Ok(opportunities);
    } else if Contains(Lower(marketName), "kills") {
      var line := ExtractLine(marketName);
      if line.Some? && line.value != 0.0 {
        if SumOverflows(line.value) {
          return Err(OverflowError);
        }
        var avgKills := EstimateAvgKills(m.league);
        var fairOdds := FairOddsFor(avgKills, line.value, exp);
        if fairOdds.over.Some? && fairOdds.over.value != 0.0 {
          var edge := HasEdge(oddsInfo, fairOdds.over, threshold);
          if edge.Err? {
            return Err(edge.error);
          }
          if edge.value {
            var current := oddsInfo.price.value;
            return Ok(Put(opportunities, marketName + "_OVER",
              Opportunity(current, fairOdds.over.value, CalculateEdge(current, fairOdds.over.value))));
          }
        }
      }
      return Ok(opportunities);
    }
    return Ok(opportunities);
  }

  /** The `ML_` keys an opportunity may have: a team that is a key of the fair moneyline
      and a side of an `ML` quote. */
  ghost predicate MoneylineKey(fairMl: Option<map<string, real>>, entries: Odds, key: string)
  {
    |key| >= 3 && key[..3] == "ML_" && fairMl.Some? && key[3..] in fairMl.value
    && exists e :: e in entries && e.key == "ML" && e.value.Sides? && HasKey(e.value.sides, key[3..])
  }

  /** The `_OVER` keys an opportunity may have: a kills market of the match. */
  ghost predicate OverKey(entries: Odds, key: string)
  {
    |key| >= 5 && key[|key| - 5..] == "_OVER"
    && Contains(Lower(key[..|key| - 5]), "kills")
    && exists e :: e in entries && e.key == key[..|key| - 5]
  }

  /** What every entry of the result satisfies: its edge is above the threshold, its
      displayed edge is computed from its prices, and its key names an `ML` side or a
      kills market. */
  ghost predicate Sound(fairMl: Option<map<string, real>>, entries: Odds, threshold: real, o: Entry<Opportunity>)
  {
    o.value.fair != 0.0 && o.value.current != 0.0
    && EdgeRatio(o.value.current, o.value.fair) > threshold
    && o.value.edge == CalculateEdge(o.value.current, o.value.fair)
    && (MoneylineKey(fairMl, entries, o.key) || OverKey(entries, o.key))
  }

  ghost predicate AllSound(fairMl: Option<map<string, real>>, entries: Odds, threshold: real, d: Opportunities)
  {
    forall i :: 0 <= i < |d| ==> Sound(fairMl, entries, threshold, d[i])
  }

  /** Assigning a sound entry keeps every entry sound. */
  lemma PutSound(acc: Opportunities, fairMl: Option<map<string, real>>, entries: Odds, threshold: real,
                 o: Entry<Opportunity>)
    requires Sound(fairMl, entries, threshold, o) && AllSound(fairMl, entries, threshold, acc)
    ensures AllSound(fairMl, entries, threshold, Put(acc, o.key, o.value))
  {
    var r := Put(acc, o.key, o.value);
    forall i | 0 <= i < |r| ensures Sound(fairMl, entries, threshold, r[i]) {
      assert r[i] in acc || r[i] == o;
    }
  }

  lemma {:induction false} ScanSidesSound(acc: Opportunities, sides: Dict<Price>, full: Dict<Price>,
                                          fair: map<string, real>, entries: Odds, threshold: real)
    requires sides <= full && Entry("ML", Sides(full)) in entries
    requires AllSound(Some(fair), entries, threshold, acc)
    ensures AllSound(Some(fair), entries, threshold, ScanSides(acc, sides, fair, threshold))
  {
    if sides != [] {
      var init := sides[..|sides| - 1];
      var side := sides[|sides| - 1];
      ScanSidesSound(acc, init, full, fair, entries, threshold);
      var prev := ScanSides(acc, init, fair, threshold);
      var f := FairFor(fair, side.key);
      if f.Some? && f.value != 0.0 && HasEdge(Single(side.value), f, threshold) == Ok(true) {
        var key := "ML_" + side.key;
        assert key[3..] == side.key && key[..3] == "ML_";
        assert full[|sides| - 1] == side;
        assert HasKey(full, side.key);
        var o := Opportunity(side.value.value, f.value, CalculateEdge(side.value.value, f.value));
        assert MoneylineKey(Some(fair), entries, key);
        PutSound(prev, Some(fair), entries, threshold, Entry(key, o));
      }
    }
  }

  /** The kills branch of a market turn keeps every entry sound. */
  lemma KillsStepSound(acc: Opportunities, league: string, fairMl: Option<map<string, real>>, entries: Odds,
                       e: Entry<Quote>, threshold: real, exp: real -> Positive)
    requires e in entries && Contains(Lower(e.key), "kills")
    requires KillsStep(acc, league, e, threshold, exp).Ok?
    requires AllSound(fairMl, entries, threshold, acc)
    ensures AllSound(fairMl, entries, threshold, KillsStep(acc, league, e, threshold, exp).value)
  {
    var line := ExtractLine(e.key);
    if LineUsable(line) {
      var over := FairOddsFor(EstimateAvgKills(league), line.value, exp).over;
      if over.Some? && over.value != 0.0 && HasEdge(e.value, over, threshold) == Ok(true) {
        var key := e.key + "_OVER";
        assert key[..|key| - 5] == e.key && key[|key| - 5..] == "_OVER";
        var current := e.value.price.value;
        var o := Opportunity(current, over.value, CalculateEdge(current, over.value));
        assert OverKey(entries, key);
        PutSound(acc, fairMl, entries, threshold, Entry(key, o));
      }
    }
  }

  /** Soundness with respect to a prefix of the markets carries over to the whole. */
  lemma SoundGrows(fairMl: Option<map<string, real>>, init: Odds, entries: Odds, threshold: real, acc: Opportunities)
    requires init <= entries && AllSound(fairMl, init, threshold, acc)
    ensures AllSound(fairMl, entries, threshold, acc)
  {
    forall i | 0 <= i < |acc| ensures Sound(fairMl, entries, threshold, acc[i]) {
      var o := acc[i];
      assert Sound(fairMl, init, threshold, o);
      if MoneylineKey(fairMl, init, o.key) {
        var e :| e in init && e.key == "ML" && e.value.Sides? && HasKey(e.value.sides, o.key[3..]);
        assert e in entries;
      } else {
        var e :| e in init && e.key == o.key[..|o.key| - 5];
        assert e in entries;
      }
    }
  }

  /** Every entry of a result of the scan has an edge above the threshold and an `ML_`
      key for a team present in both the quote and the fair moneyline, or an `_OVER` key
      for a kills market. */
  lemma {:induction false} ScanSound(m: MatchRecord, fairMl: Option<map<string, real>>, entries: Odds,
                                     threshold: real, exp: real -> Positive)
    requires fairMl == FairMoneyline(m.matchName, m.league)
    requires ScanMarkets(m, entries, threshold, exp).Ok?
    ensures AllSound(fairMl, entries, threshold, ScanMarkets(m, entries, threshold, exp).value)
  {
    if entries != [] {
      var init := entries[..|entries| - 1];
      var e := entries[|entries| - 1];
      ScanSound(m, fairMl, init, threshold, exp);
      var acc := ScanMarkets(m, init, threshold, exp).value;
      SoundGrows(fairMl, init, entries, threshold, acc);
      assert e in entries;
      if e.key == "ML" && e.value.Sides? {
        if fairMl.Some? {
          ScanSidesSound(acc, e.value.sides, e.value.sides, fairMl.value, entries, threshold);
        }
      } else if Contains(Lower(e.key), "kills") {
        KillsStepSound(acc, m.league, fairMl, entries, e, threshold, exp);
      }
    }
  }

  /** The scan of one more market is one more turn. */
  lemma ScanPrefixStep(m: MatchRecord, entries: Odds, i: nat, threshold: real, exp: real -> Positive)
    requires i < |entries|
    ensures var before := ScanMarkets(m, entries[..i], threshold, exp);
            ScanMarkets(m, entries[..i + 1], threshold, exp)
            == if before.Err? then before else MarketStep(before.value, m, entries[i], threshold, exp)
  {
    assert entries[..i + 1][..i] == entries[..i];
  }

  /** Once the scan has raised, it stays raised. */
  lemma {:induction false} ScanStaysFaulted(m: MatchRecord, entries: Odds, j: nat, threshold: real, exp: real -> Positive)
    requires j <= |entries| && ScanMarkets(m, entries[..j], threshold, exp).Err?
    ensures ScanMarkets(m, entries, threshold, exp) == ScanMarkets(m, entries[..j], threshold, exp)
    decreases |entries| - j
  {
    if j < |entries| {
      ScanStepFaulted(m, entries, j, threshold, exp);
      ScanStaysFaulted(m, entries, j + 1, threshold, exp);
    } else {
      assert entries[..j] == entries;
    }
  }

  lemma ScanStepFaulted(m: MatchRecord, entries: Odds, j: nat, threshold: real, exp: real -> Positive)
    requires j < |entries| && ScanMarkets(m, entries[..j], threshold, exp).Err?
    ensures ScanMarkets(m, entries[..j + 1], threshold, exp) == ScanMarkets(m, entries[..j], threshold, exp)
  {
    assert entries[..j + 1][..j] == entries[..j];
  }

  /** A kills market quoted as a dictionary, with a usable line and a fair over price,
      raises whatever was found before it: `OverflowError` when the Poisson sum reaches
      a factorial too large for a float, `TypeError` at the subtraction otherwise. */
  lemma KillsStepRaises(acc: Opportunities, league: string, e: Entry<Quote>, threshold: real, exp: real -> Positive)
    requires e.value.Sides? && e.value.sides != [] && LineUsable(ExtractLine(e.key))
    requires FairOddsFor(EstimateAvgKills(league), ExtractLine(e.key).value, exp).over.Some?
    ensures KillsStep(acc, league, e, threshold, exp)
            == Err(if SumOverflows(ExtractLine(e.key).value) then OverflowError else TypeError)
  {
    var line := ExtractLine(e.key).value;
    if !SumOverflows(line) {
      var over := FairOddsFor(EstimateAvgKills(league), line, exp).over;
      assert over.value != 0.0;
      assert HasEdge(e.value, over, threshold) == Err(TypeError);
    }
  }

  /** Any kills market whose line is usable and at least 171 raises `OverflowError`,
      whatever its quote, before the quote is looked at. */
  lemma KillsOverflowRaises(acc: Opportunities, league: string, e: Entry<Quote>, threshold: real,
                            exp: real -> Positive)
    requires LineUsable(ExtractLine(e.key)) && ExtractLine(e.key).value >= 171.0
    ensures KillsStep(acc, league, e, threshold, exp) == Err(OverflowError)
  {
    OverflowFrom(ExtractLine(e.key).value);
  }

  /** The kills quotes the provider builds are `{over, under}` dictionaries, while the
      scan subtracts the fair price from the quote itself: a kills market with a usable
      line and a fair over price makes the whole scan raise. */
  lemma KillsDictRaises(m: MatchRecord, i: nat, threshold: real, exp: real -> Positive)
    requires i < |m.odds|
    requires var e := m.odds[i];
             e.key != "ML" && Contains(Lower(e.key), "kills")
             && e.value.Sides? && e.value.sides != [] && LineUsable(ExtractLine(e.key))
             && FairOddsFor(EstimateAvgKills(m.league), ExtractLine(e.key).value, exp).over.Some?
    ensures ScanMarkets(m, m.odds, threshold, exp).Err?
  {
    var e := m.odds[i];
    KillsMarketRaises(m, e, threshold, exp);
    ScanRaisesAt(m, m.odds, i, threshold, exp);
  }

  lemma KillsMarketRaises(m: MatchRecord, e: Entry<Quote>, threshold: real, exp: real -> Positive)
    requires e.key != "ML" && Contains(Lower(e.key), "kills")
             && e.value.Sides? && e.value.sides != [] && LineUsable(ExtractLine(e.key))
             && FairOddsFor(EstimateAvgKills(m.league), ExtractLine(e.key).value, exp).over.Some?
    ensures forall acc :: MarketStep(acc, m, e, threshold, exp).Err?
  {
    forall acc: Opportunities ensures MarketStep(acc, m, e, threshold, exp).Err? {
      KillsStepRaises(acc, m.league, e, threshold, exp);
    }
  }

  /** A market that raises whatever came before makes the whole scan raise. */
  lemma ScanRaisesAt(m: MatchRecord, entries: Odds, i: nat, threshold: real, exp: real -> Positive)
    requires i < |entries|
    requires forall acc :: MarketStep(acc, m, entries[i], threshold, exp).Err?
    ensures ScanMarkets(m, entries, threshold, exp).Err?
  {
    ScanPrefixStep(m, entries, i, threshold, exp);
    var before := ScanMarkets(m, entries[..i], threshold, exp);
    if before.Ok? {
      assert MarketStep(before.value, m, entries[i], threshold, exp).Err?;
    }
    ScanStaysFaulted(m, entries, i + 1, threshold, exp);
  }

  /** The names the fair moneyline prices are the two teams of the match string. */
  lemma FairKeysAreTeams(matchName: string, league: string, t: string)
    ensures var fairMl := FairMoneyline(matchName, league);
            fairMl.Some? && t in fairMl.value ==> t in ExtractTeams(matchName)
  {
  }

  /** Under the provider's odds every `ML_` key the scan could produce names a side
      `team1` or `team2`. */
  lemma ProviderMoneylineKeys(fairMl: Option<map<string, real>>, markets: seq<RawMarket>, key: string)
    ensures MoneylineKey(fairMl, OddsOf(markets), key) ==> key[3..] == "team1" || key[3..] == "team2"
  {
    var odds := OddsOf(markets);
    if MoneylineKey(fairMl, odds, key) {
      var team := key[3..];
      var e :| e in odds && e.key == "ML" && e.value.Sides? && HasKey(e.value.sides, team);
      var k :| 0 <= k < |odds| && odds[k] == e;
      OddsDistinct(markets);
      DistinctGet(odds, k);
      MoneyLineShape(markets);
      var p := Find(e.value.sides, team).value;
      assert p == 0 || p == 1;
    }
  }

  /** The provider keys the `ML` quote by position (`team1`, `team2`) while the fair
      moneyline is keyed by team name: for a match built by the provider whose teams
      are not literally called `team1` or `team2`, the scan finds no `ML_` opportunity,
      and every opportunity it finds is an `_OVER` one. */
  lemma ProviderMoneylineSilent(m: MatchRecord, markets: seq<RawMarket>, threshold: real, exp: real -> Positive)
    requires m.odds == OddsOf(markets)
    requires forall t :: t in ExtractTeams(m.matchName) ==> t != "team1" && t != "team2"
    requires ScanMarkets(m, m.odds, threshold, exp).Ok?
    ensures var r := ScanMarkets(m, m.odds, threshold, exp).value;
            forall i :: 0 <= i < |r| ==> OverKey(m.odds, r[i].key)
  {
    var fairMl := FairMoneyline(m.matchName, m.league);
    ScanSound(m, fairMl, m.odds, threshold, exp);
    SoundProviderOver(m.matchName, m.league, markets, ScanMarkets(m, m.odds, threshold, exp).value, threshold);
  }

  lemma SoundProviderOver(matchName: string, league: string, markets: seq<RawMarket>, r: Opportunities,
                          threshold: real)
    requires forall t :: t in ExtractTeams(matchName) ==> t != "team1" && t != "team2"
    requires AllSound(FairMoneyline(matchName, league), OddsOf(markets), threshold, r)
    ensures forall i :: 0 <= i < |r| ==> OverKey(OddsOf(markets), r[i].key)
  {
    var fairMl := FairMoneyline(matchName, league);
    forall i | 0 <= i < |r| ensures OverKey(OddsOf(markets), r[i].key) {
      assert Sound(fairMl, OddsOf(markets), threshold, r[i]);
      ProviderMoneylineKeys(fairMl, markets, r[i].key);
      FairKeysAreTeams(matchName, league, r[i].key[3..]);
    }
  }

  /** In a dictionary with distinct keys, the entry at a position is what `get` finds. */
  lemma DistinctGet<V>(d: Dict<V>, k: nat)
    requires DistinctKeys(d) && k < |d|
    ensures Get(d, d[k].key) == Some(d[k].value)
  {
    var j := Find(d, d[k].key);
    assert j.Some? && j.value <= k;
  }

  // ---------------------------------------------------------------- the two cycles

  /** `analyze_opportunities`: the opening cycle passes the raw odds on unchanged. */
  function AnalyzeOpportunities(m: MatchRecord): (odds: Odds)
    ensures |odds| == |m.odds| && forall i :: 0 <= i < |odds| ==> odds[i] == m.odds[i]
  {
    m.odds
  }

  /** What the engine hands to `notifier.notify`. */
  datatype Notification =
    | OpeningAlert(matchName: string, odds: Odds)
    | LiveAlert(matchName: string, opportunities: Opportunities, league: string, status: string)

  /** The notification the opening cycle sends for a match, if any: one for every match
      whose odds are not empty. */
  function OpeningAlertFor(m: MatchRecord): (alert: Option<Notification>)
    ensures alert.Some? <==> m.odds != []
    ensures alert.Some? ==> alert.value == OpeningAlert(m.matchName, m.odds)
  {
    var odds := AnalyzeOpportunities(m);
    if odds != [] then Some(OpeningAlert(m.matchName, odds)) else None
  }

  /** The notifications an opening iteration sends when every one is accepted, in the
      order of the matches. */
  function OpeningAlerts(batch: seq<MatchRecord>): (alerts: seq<Notification>)
  {
    if batch == [] then []
    else
      var init := OpeningAlerts(batch[..|batch| - 1]);
      match OpeningAlertFor(batch[|batch| - 1])
      case None => init
      case Some(a) => init + [a]
  }

  /** One opening notification per match with odds, naming that match, and no more. */
  lemma {:induction false} OpeningAlertsCover(batch: seq<MatchRecord>)
    ensures |OpeningAlerts(batch)| <= |batch|
    ensures forall a :: a in OpeningAlerts(batch) ==>
              a.OpeningAlert? && exists m :: m in batch && m.odds != [] && a == OpeningAlert(m.matchName, m.odds)
    ensures forall m :: m in batch && m.odds != [] ==> OpeningAlert(m.matchName, m.odds) in OpeningAlerts(batch)
  {
    if batch != [] {
      var init := batch[..|batch| - 1];
      OpeningAlertsCover(init);
      forall m | m in init ensures m in batch {
        var k :| 0 <= k < |init| && init[k] == m;
        assert batch[k] == m;
      }
      assert batch == init + [batch[|batch| - 1]];
    }
  }

  /** The alerts for a prefix of the batch come first. */
  lemma {:induction false} OpeningAlertsPrefix(batch: seq<MatchRecord>, j: nat)
    requires j <= |batch|
    ensures OpeningAlerts(batch[..j]) <= OpeningAlerts(batch)
    decreases |batch| - j
  {
    if j < |batch| {
      OpeningAlertsPrefix(batch, j + 1);
      assert batch[..j + 1][..j] == batch[..j];
    } else {
      assert batch[..j] == batch;
    }
  }

  /** The fingerprint `f"{match}_{hash(str(opportunities))}"`. */
  function OpportunityId(matchName: string, hash: int): string
  {
    matchName + "_" + IntToString(hash)
  }

  const CacheLimit: nat := 100
  const CacheKeep: nat := 50

  class OpeningEngine {
    /** The parsed `EDGE_THRESHOLD`. */
    const edgeThreshold: real
    /** `math.exp`. */
    const exp: real -> Positive
    /** `hash(str(opportunities))`: fixed for the life of the process. */
    const fingerprint: Opportunities -> int
    /** Whether `notifier.notify` returns for a notification (false: it raises, which
        ends the iteration). */
    const sinkAccepts: Notification -> bool
    /** The provider's settings. */
    const provider: ProviderConfig
    /** `self.notified_opportunities`. */
    var notified: set<string>
    /** The notifications the sink has accepted, oldest first. */
    var sent: seq<Notification>

    ghost predicate Valid()
      reads this
    {
      |notified| <= CacheLimit
    }

    constructor (edgeThreshold: real, exp: real -> Positive, fingerprint: Opportunities -> int,
                 sinkAccepts: Notification -> bool, provider: ProviderConfig)
      ensures Valid() && notified == {} && sent == []
      ensures this.edgeThreshold == edgeThreshold && this.exp == exp && this.fingerprint == fingerprint
      ensures this.sinkAccepts == sinkAccepts && this.provider == provider
    {
      this.edgeThreshold := edgeThreshold;
      this.exp := exp;
      this.fingerprint := fingerprint;
      this.sinkAccepts := sinkAccepts;
      this.provider := provider;
      notified := {};
      sent := [];
    }

    /** The live notification for a match and the opportunities found in it. */
    function LiveAlertFor(m: MatchRecord, opps: Opportunities): Notification
    {
      LiveAlert(m.matchName, opps, m.league, m.status)
    }

    /** Whether the live cycle, in the current state, notifies match `m`. */
    ghost predicate NotifiesNow(m: MatchRecord)
      reads this
    {
      var r := ScanMarkets(m, m.odds, edgeThreshold, exp);
      r.Ok? && r.value != []
      && OpportunityId(m.matchName, fingerprint(r.value)) !in notified
      && sinkAccepts(LiveAlertFor(m, r.value))
    }

    /** Whether the live cycle, in the current state, raises on match `m`. */
    ghost predicate RaisesNow(m: MatchRecord)
      reads this
    {
      var r := ScanMarkets(m, m.odds, edgeThreshold, exp);
      r.Err? || (r.value != [] && OpportunityId(m.matchName, fingerprint(r.value)) !in notified
                 && !sinkAccepts(LiveAlertFor(m, r.value)))
    }

    /** The body of the live loop for one match: notify unless the fingerprint is
        cached, cache it after the notification, and cut the cache to 50 of its own
        entries once it holds more than 100. */
    method ProcessLiveMatch(m: MatchRecord) returns (ok: bool)
      requires Valid()
      modifies this`notified, this`sent
      ensures Valid()
      ensures ok <==> !old(RaisesNow(m))
      ensures !old(NotifiesNow(m)) ==> notified == old(notified) && sent == old(sent)
      ensures old(NotifiesNow(m)) ==>
                var opps := ScanMarkets(m, m.odds, edgeThreshold, exp).value;
                var id := OpportunityId(m.matchName, fingerprint(opps));
                sent == old(sent) + [LiveAlertFor(m, opps)]
                && (|old(notified)| < CacheLimit ==> notified == old(notified) + {id})
                && (|old(notified)| == CacheLimit ==> notified <= old(notified) + {id} && |notified| == CacheKeep)
    {
      var r := FindValueOpportunities(m, edgeThreshold, exp);
      if r.Err? {
        return false;
      }
      var opportunities := r.value;
      if opportunities != [] {
        var id := OpportunityId(m.matchName, fingerprint(opportunities));
        if id !in notified {
          var alert := LiveAlert(m.matchName, opportunities, m.league, m.status);
          if !sinkAccepts(alert) {
            return false;
          }
          sent := sent + [alert];
          notified := notified + {id};
          if |notified| > CacheLimit {
            ghost var some := SubsetOfSize(notified, CacheKeep);
            var kept :| kept <= notified && |kept| == CacheKeep;
            notified := kept;
          }
        }
      }
      return true;
    }

    /** The fingerprints of the matches of a batch whose scan succeeds. */
    ghost function LiveIds(batch: seq<MatchRecord>): set<string>
      reads this
    {
      set m | m in batch && ScanMarkets(m, m.odds, edgeThreshold, exp).Ok?
        :: OpportunityId(m.matchName, fingerprint(ScanMarkets(m, m.odds, edgeThreshold, exp).value))
    }

    /** One live iteration over the matches `get_live_odds` returned; an exception ends
        it early (`completed` is false). */
    method ProcessLiveBatch(batch: seq<MatchRecord>) returns (completed: bool)
      requires Valid()
      modifies this`notified, this`sent
      ensures Valid()
      ensures |old(sent)| <= |sent| <= |old(sent)| + |batch| && sent[..|old(sent)|] == old(sent)
      ensures forall k :: |old(sent)| <= k < |sent| ==>
                sent[k].LiveAlert? && sinkAccepts(sent[k])
                && exists m :: m in batch && sent[k].matchName == m.matchName
      ensures notified <= old(notified) + LiveIds(batch)
    {
      completed := true;
      var i := 0;
      while i < |batch|
        invariant 0 <= i <= |batch| && Valid()
        invariant |old(sent)| <= |sent| <= |old(sent)| + i && sent[..|old(sent)|] == old(sent)
        invariant forall k :: |old(sent)| <= k < |sent| ==>
                    sent[k].LiveAlert? && sinkAccepts(sent[k])
                    && exists m :: m in batch && sent[k].matchName == m.matchName
        invariant notified <= old(notified) + LiveIds(batch)
      {
        var ok := ProcessLiveMatch(batch[i]);
        if !ok {
          return false;
        }
        i := i + 1;
      }
    }

    /** One opening iteration: every match with odds is notified, in order, until the
        sink raises, which ends the iteration. */
    method ProcessOpeningBatch(batch: seq<MatchRecord>) returns (completed: bool)
      modifies this`sent
      ensures completed ==> sent == old(sent) + OpeningAlerts(batch)
      ensures !completed ==> exists j :: 0 <= j < |batch| && OpeningAlertFor(batch[j]).Some?
                                          && !sinkAccepts(OpeningAlertFor(batch[j]).value)
                                          && sent == old(sent) + OpeningAlerts(batch[..j])
      ensures completed <==> forall a :: a in OpeningAlerts(batch) ==> sinkAccepts(a)
    {
      for i := 0 to |batch|
        invariant sent == old(sent) + OpeningAlerts(batch[..i])
        invariant forall a :: a in OpeningAlerts(batch[..i]) ==> sinkAccepts(a)
      {
        assert batch[..i + 1][..i] == batch[..i];
        var opportunities := AnalyzeOpportunities(batch[i]);
        if opportunities != [] {
          var alert := OpeningAlert(batch[i].matchName, opportunities);
          if !sinkAccepts(alert) {
            OpeningAlertsPrefix(batch, i + 1);
            assert alert in OpeningAlerts(batch[..i + 1]);
            return false;
          }
          sent := sent + [alert];
        }
      }
      assert batch[..|batch|] == batch;
      return true;
    }

    /** One iteration of `monitor_live_odds`: the running and recent fetches, the merge,
        then the batch. */
    method MonitorLiveOnce(running: Outcome, recent: Outcome) returns (completed: bool)
      requires Valid()
      modifies this`notified, this`sent
      ensures Valid()
      ensures |old(sent)| <= |sent| && sent[..|old(sent)|] == old(sent)
      ensures forall k :: |old(sent)| <= k < |sent| ==>
                sent[k].LiveAlert? && sinkAccepts(sent[k])
                && exists m :: m in LiveOdds(FetchResult(running, "running", provider.monitoredLeagues),
                                             FetchResult(recent, "recent", provider.monitoredLeagues))
                               && sent[k].matchName == m.matchName && m.odds != []
    {
      var live := FetchResult(running, "running", provider.monitoredLeagues);
      var recentMatches := FetchResult(recent, "recent", provider.monitoredLeagues);
      var batch := LiveOdds(live, recentMatches);
      WithOddsMembers(live + recentMatches);
      completed := ProcessLiveBatch(batch);
    }

    /** One iteration of `monitor_opening_odds`: the upcoming fetch, then the batch. */
    method MonitorOpeningOnce(upcoming: Outcome) returns (completed: bool)
      modifies this`sent
      ensures var batch := FetchResult(upcoming, "upcoming", provider.monitoredLeagues);
              completed ==> sent == old(sent) + OpeningAlerts(batch)
      ensures var batch := FetchResult(upcoming, "upcoming", provider.monitoredLeagues);
              !completed ==> exists j :: 0 <= j < |batch| && OpeningAlertFor(batch[j]).Some?
                                         && !sinkAccepts(OpeningAlertFor(batch[j]).value)
                                         && sent == old(sent) + OpeningAlerts(batch[..j])
      ensures var batch := FetchResult(upcoming, "upcoming", provider.monitoredLeagues);
              completed <==> forall a :: a in OpeningAlerts(batch) ==> sinkAccepts(a)
      ensures FetchResult(upcoming, "upcoming", provider.monitoredLeagues) == [] ==> completed && sent == old(sent)
    {
      var batch := FetchResult(upcoming, "upcoming", provider.monitoredLeagues);
      completed := ProcessOpeningBatch(batch);
    }
  }

  /** Processing the same match twice in a row, with room in the cache, notifies it at
      most once: the second pass finds its fingerprint cached. */
  method RepeatNotifiesOnce(e: OpeningEngine, m: MatchRecord)
    requires e.Valid() && |e.notified| < CacheLimit
    modifies e`notified, e`sent
    ensures e.Valid()
    ensures old(e.NotifiesNow(m)) ==> e.sent == old(e.sent) + [e.LiveAlertFor(m, ScanMarkets(m, m.odds, e.edgeThreshold, e.exp).value)]
    ensures !old(e.NotifiesNow(m)) ==> e.sent == old(e.sent)
  {
    var first := e.ProcessLiveMatch(m);
    var second := e.ProcessLiveMatch(m);
  }
}
