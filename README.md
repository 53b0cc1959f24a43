# LoL opening bot: odds pipeline in Dafny

This project models the decision logic of a League of Legends betting-odds bot:

- **Provider** (`provider.dfy`). The PandaScore provider turns the feed's raw matches into the bot's
  own match records. It parses the monitored-league setting, builds the request, and maps each fetch
  outcome to a list of records. It formats matches and normalises market names into canonical odds
  keys (`ML`, `FirstBlood`, `Kills…`, objective keys). It merges the running and recent matches for
  the live cycle.
- **Engine** (`engine.dfy`). The `OpeningEngine` compares quoted prices with fair prices
  (`has_edge`, `calculate_edge`). It derives fair moneyline prices from a per-league base probability
  and fair kills prices from a Poisson model. It collects value opportunities into a dictionary. It
  runs one iteration of the opening cycle, which notifies every match with odds, and of the live
  cycle, which suppresses repeats through a bounded cache of fingerprints.
- **Fair odds** (`fair_odds.dfy`). The Poisson over/under pricing of `FairOddsEngine`.
- **Health check** (`health_check.dfy`). `validate_config` sorts the environment's problems into
  errors and warnings. The startup gate refuses to start the engine when there is an error.

Two support modules hold what Python provides:

- `base.dfy`: `Option`, a `Result` carrying the exception a Python operation raises, and an
  insertion-ordered dictionary, `Dict`. `Put` replaces a value in place or appends a new key, as a
  Python `dict` does.
- `text.dfy`: the `str` operations the source uses, over ASCII letters and digits. These are
  `lower`, `strip`, `split`, `join`, `in`, a one-character `replace`, `title`, and the leftmost match
  of `\d+\.?\d*` with `float()` of the match.

Where the code's behaviour differs from what its comments or naming suggest, the model follows the
code and proves what the code does:

- An empty `MONITORED_LEAGUES` setting does not switch the league filter off. It parses to `[""]`,
  so the filter is always sent and only matches without a league slug survive
  (`Provider.EmptySettingFilters`, `Provider.RequestFilters`).
- There is no retry, no unfiltered fallback after a 400, and no recency-ordered eviction. Every
  failed fetch is simply the empty list (`Provider.FetchFailuresEmpty`). The cache trim keeps an
  arbitrary 50 of its own entries. That can evict the fingerprint just inserted, so an identical
  opportunity set can be notified again on a later iteration.
- The provider keys the `ML` quote by position (`team1`, `team2`), while the engine's fair
  moneyline is keyed by team name. For provider-built matches the moneyline branch never finds an
  opportunity (`Engine.ProviderMoneylineSilent`).
- The provider's kills quote is an `{over, under}` dictionary, while the engine subtracts the fair
  price from the quote itself. In Python, `dict - float` raises `TypeError`, which ends the live
  iteration (`Engine.KillsDictRaises`).
- `TelegramNotifier` has no `notify` method, so the notification sink is a parameter. The engine
  records whether it accepts each notification; a rejection is the exception that ends the
  iteration.
- The engine module imports its providers from `src/providers.py`. The provider modelled here is
  the one in `src/debug_pandascore.py`, which has the `get_upcoming_odds` and `get_live_odds`
  methods the engine calls.

## Model

| member | source | states |
|---|---|---|
| `Provider.ParseLeagues` | src/debug_pandascore.py:65-66 | The monitored-league list is never empty, whatever the setting. |
| `Provider.NewProvider` | src/debug_pandascore.py:59-66 | A provider built from any environment has a non-empty league list, so the filter is always applied. |
| `Provider.EmptySettingFilters` | src/debug_pandascore.py:65-66 | An empty setting parses to `[""]`, not to the empty list. |
| `Provider.ParsedAreCanonical` | src/debug_pandascore.py:66 | Every parsed slug is trimmed, lower-case and comma-free. |
| `Provider.ReparseCanonical` | src/debug_pandascore.py:103-106 | Joining canonical slugs with commas and parsing the result gives back the same list. |
| `Provider.FilterReparses` | src/debug_pandascore.py:103-106 | The `filter[league_slug]` value re-parses to the monitored list itself. |
| `Provider.BuildRequest` | src/debug_pandascore.py:93-106 | The request carries the league filter exactly when the monitored list is non-empty. |
| `Provider.RequestFilters` | src/debug_pandascore.py:96-106 | For any environment the filter is sent, its value is the comma-join of the list, and it parses back to that list. |
| `Provider.FetchFailuresEmpty` | src/debug_pandascore.py:119-146 | Anything other than a 2xx response with a readable body gives the empty list. This covers 400, 403, 404, other HTTP errors, timeouts and other exceptions. |
| `Provider.FetchSuccess` | src/debug_pandascore.py:131-135 | A successful fetch returns exactly the formatted records of its body. |
| `Provider.MarketEntry` | src/debug_pandascore.py:198-203 | A market with no results contributes no entry. |
| `Provider.ExtractMarket` | src/debug_pandascore.py:198-247 | One loop turn of `_extract_odds` (the rule chain, then the assignment) is the specification's step for that market. |
| `Provider.ExtractOdds` | src/debug_pandascore.py:192-249 | The loop over the markets builds exactly the specified odds dictionary. |
| `Provider.OddsDistinct` | src/debug_pandascore.py:196-247 | The extracted dictionary never holds a key twice. |
| `Provider.OddsLastWins` | src/debug_pandascore.py:206-247 | Each key holds what the last market producing that key contributed. |
| `Provider.OddsEmpty` | src/debug_pandascore.py:198-249 | The dictionary is empty exactly when no market contributes an entry. |
| `Provider.MarketAddsNothing` | src/debug_pandascore.py:202-231 | These markets add nothing: empty results, no matching rule, a kills name without a number, or too few results for a higher-priority rule (no fall-through to a later rule). |
| `Provider.MarketSides` | src/debug_pandascore.py:206-245 | A two-sided entry takes `results[0]` as team1 (or over) and `results[1]` as team2 (or under). |
| `Provider.KillsEntryShape` | src/debug_pandascore.py:223-236 | A kills key passes the engine's `'kills' in key.lower()` test and contains a digit. Its quote is a non-empty dictionary, not a bare price. |
| `Provider.MoneyLineShape` | src/debug_pandascore.py:206-212 | The `ML` entry is always the two-sided dictionary keyed `team1`, `team2`. |
| `Provider.LastSource` | src/debug_pandascore.py:198-247 | For every key, the quote the last-wins reading gives is the entry of one market, and no market after it produces that key. |
| `Provider.MLEntryIsWinner` | src/debug_pandascore.py:205-247 | A market that contributes the key `ML` is classified as a winner market, and its quote is `{team1: results[0], team2: results[1]}`. |
| `Provider.LastForML` | src/debug_pandascore.py:206-247 | The last market producing `ML` is a winner market (its name classifies as `MoneyLine`), no later market produces `ML`, and its quote has the two sides keyed `team1` and `team2`. |
| `Provider.ObjectiveKeyNotML` | src/debug_pandascore.py:239-240 | An objective market's key can never be `ML`. |
| `Provider.FormatOne` | src/debug_pandascore.py:154-186 | A match is kept iff all three hold: it has two opponents, its slug is monitored (or the list is empty), and it has odds or the status is `upcoming`. A kept record is `"<team1> vs <team2>"` with the defaults `Time A`/`Time B`, the league's name (default `Unknown League`), its slug, the given status and the extracted odds. |
| `Provider.FormatMatches` | src/debug_pandascore.py:148-190 | The loop appending records builds exactly the specified list. |
| `Provider.FormattedConcat` | src/debug_pandascore.py:152-190 | Formatting works match by match, in input order. |
| `Provider.FormattedKept` | src/debug_pandascore.py:154-188 | The output is never longer than the input. Every record carries the status, a monitored slug, and odds unless the status is `upcoming`. |
| `Provider.FormattedDrops` | src/debug_pandascore.py:156-172 | A match with fewer than two opponents, or from an unmonitored league, yields nothing. |
| `Provider.WithOdds` | src/debug_pandascore.py:87 | The odds filter never lengthens the list. |
| `Provider.WithOddsMembers` | src/debug_pandascore.py:87 | The filter keeps exactly the matches whose odds are non-empty. |
| `Provider.WithOddsConcat` | src/debug_pandascore.py:86-87 | Filtering a concatenation is the concatenation of the filtered parts. |
| `Provider.LiveOddsOrder` | src/debug_pandascore.py:82-87 | `get_live_odds` returns the running matches with odds, then the recent ones with odds, in order, and nothing else. |
| `FairOdds.PowNonNegative` | src/fair_odds.py:8 | `lam ** k` is non-negative for a non-negative `lam`. |
| `FairOdds.Factorial` | src/fair_odds.py:8 | The factorial is at least 1, so the division in the Poisson term is safe. |
| `FairOdds.PoissonProb` | src/fair_odds.py:7-8 | Every Poisson term is non-negative for a non-negative mean. |
| `FairOdds.TermCountFloor` | src/fair_odds.py:11 | For a non-negative line the sum runs over `floor(line) + 1` terms. |
| `FairOdds.ProbUnder` | src/fair_odds.py:11-12 | `prob_under` is the sum of the terms for k = 0 .. int(line), and `prob_under + prob_over == 1`. |
| `FairOdds.FairOddsFor` | src/fair_odds.py:10-14 | Each side has a price exactly when its probability is positive, so there is no division by zero. A price is positive, and price times probability is 1. For a line of 171 or more the source raises `OverflowError` first; that is stated by `FairOdds.OverflowFrom` and checked before pricing in `Engine.KillsStep`. |
| `FairOdds.UnderSumNonNegative` | src/fair_odds.py:11 | The partial sums of the Poisson terms are non-negative. |
| `FairOdds.UnderSumMonotone` | src/fair_odds.py:11 | Adding terms never lowers the partial sum. |
| `FairOdds.ProbUnderMonotone` | src/fair_odds.py:11 | A larger line never lowers the under-probability. |
| `FairOdds.FairOverAtLeastOne` | src/fair_odds.py:11-13 | `prob_over` is at most 1, so a fair over price is at least 1. |
| `FairOdds.OverflowFrom` | src/fair_odds.py:7-11 | For a non-negative line, the sum reaches a term whose `math.factorial(k)` no longer converts to a float (k = 171) iff the line is at least 171. |
| `FairOdds.WorkedExample` | src/fair_odds.py:7-12 | Mean 2 and line 1 give an under-probability of `3·e^-2`. |
| `Engine.HasEdge` | src/engine.py:185-189 | `True` iff both prices are present and non-zero and `(market - fair)/fair` exceeds the threshold. It raises iff the market quote is a non-empty dictionary and the fair price is non-zero. |
| `Engine.RoundHalfEven` | src/engine.py:193 | `round` lands within one half of its argument, and on a tie picks the even neighbour. |
| `Engine.CalculateEdge` | src/engine.py:191-193 | The edge lies within 0.005 of `100·(market - fair)/fair`. It is non-negative for a non-negative ratio and positive for a ratio above 1/20000. |
| `Engine.EdgePositive` | src/engine.py:185-193 | An opportunity flagged with a threshold of at least 1/20000 shows a positive edge. |
| `Engine.EdgeRoundsToZero` | src/engine.py:185-193 | With threshold 0.00001, 2.00004 against 2.0 is flagged yet shows an edge of 0.0. |
| `Engine.EdgeExample` | src/engine.py:185-193 | 2.00 against 1.80 has an edge of 11.11. It is flagged at threshold 0.05 but not at 0.15. |
| `Engine.ExtractTeamsOfMatchString` | src/engine.py:181-183 | The teams read back from a match string written by the provider are the two names written, when neither name has surrounding whitespace, the first contains no `" vs"` and the second no `" vs "`. These conditions are sufficient, not exact: a first name containing `" vs"` only as in `"A vsX"` also reads back. |
| `Engine.SeparatorFirstAt` | src/engine.py:181-183 | In such a string, the first `" vs "` is the one between the two names. |
| `Engine.MatchStringCounterexample` | src/engine.py:181-183 | Without that condition the round trip fails: for any names `c` and `b` with no space, `c + " vs"` against `b` reads back as `[c, "vs " + b]`, not as the names written. For example, `"A vs"` against `"B"` reads back as `["A", "vs B"]`. |
| `Engine.TeamsOfSplit` | src/engine.py:181-183 | A string that splits into two already-stripped names gives exactly those two teams. |
| `Engine.BaseProb` | src/engine.py:142-150 | The base probability is 0.52 for `lck` and `lpl`, 0.48 for `lec` and `lcs`, and 0.5 for any other league. |
| `Engine.FairMoneyline` | src/engine.py:129-155 | A fair moneyline exists iff the match string splits into exactly two names. Its keys are those two team names. |
| `Engine.FairMoneylinePrices` | src/engine.py:140-155 | The second team is priced `1/(1-p)`. For distinct names the first is priced `1/p` and the implied probabilities sum to 1. |
| `Engine.FairKeysAreTeams` | src/engine.py:152-155 | The fair moneyline prices only the teams of the match string. |
| `Engine.MoneylineExample` | src/engine.py:129-155 | `T1 vs Gen.G` in the LCK is priced at `1/0.52` and `1/0.48`, and quotes of 1.85 and 1.95 show no edge. |
| `Engine.EstimateAvgKills` | src/engine.py:157-173 | The averages are 28.5, 32.0, 26.5, 25.0 and 30.0 for lck, lpl, lec, lcs and worlds, and 27.0 for any other league. |
| `Engine.ExtractLine` | src/engine.py:175-179 | A line is found iff the market name has a digit. The line is non-negative. |
| `Engine.LineExample` | src/engine.py:175-179 | `Total Kills Over 28.5` has the line 28.5. |
| `Text.NumberToken` | src/engine.py:178 | A token is found iff the text has a digit. It is the longest `\d+\.?\d*` match starting at the leftmost digit. |
| `Text.NumberAt` | src/engine.py:178 | The match starts the text, is made of digits with at most one point, and cannot be extended: the next character is no digit, and no second point. |
| `Engine.LineUsableExactly` | src/engine.py:115-116 | A line is used iff the name's first number exists and has a non-zero digit, since a line of 0 counts as absent. |
| `Engine.NumberTokenShape` | src/engine.py:178 | The matched token has only digits after its decimal point. |
| `Engine.ScanMoneylineSides` | src/engine.py:104-111 | The loop over the `ML` sides builds exactly the specified opportunities. |
| `Engine.ScanMarket` | src/engine.py:98-125 | One market turn (moneyline branch, kills branch, anything else) is the specified step. |
| `Engine.FindValueOpportunities` | src/engine.py:90-127 | The scan over the markets, stopping at the first exception, gives exactly the specified result. |
| `Engine.ScanSound` | src/engine.py:98-125 | Every found opportunity has an edge above the threshold and an edge computed from its prices. Its key is `ML_<team>` for a team in both the quote and the fair moneyline, or `<market>_OVER` for a kills market. |
| `Engine.ScanStaysFaulted` | src/engine.py:98-127 | Once a market raises, the scan's result is that exception. |
| `Engine.KillsStepRaises` | src/engine.py:113-120 | A kills market quoted as a dictionary, with a usable line and a fair over price, raises: `OverflowError` if the line is at least 171, otherwise `TypeError`. |
| `Engine.KillsOverflowRaises` | src/engine.py:113-118 | Any kills market whose usable line is at least 171 raises `OverflowError` in the Poisson sum, whatever its quote. |
| `Engine.KillsDictRaises` | src/engine.py:113-125 | Such a kills market anywhere in a match makes the whole scan raise. |
| `Engine.ScanRaisesAt` | src/engine.py:98-127 | A market that raises whatever came before it makes the scan raise. |
| `Engine.ProviderMoneylineKeys` | src/debug_pandascore.py:209-212 | Under provider-built odds, any `ML_` key names the side `team1` or `team2`. |
| `Engine.ProviderMoneylineSilent` | src/engine.py:100-111 | If neither team of a provider-built match is literally named `team1` or `team2`, every opportunity found is an `_OVER` one. |
| `Engine.AnalyzeOpportunities` | src/engine.py:195-197 | The opening analysis returns the raw odds unchanged. |
| `Engine.OpeningAlertFor` | src/engine.py:40-47 | A match is notified iff its odds are non-empty, with its name and odds. |
| `Engine.OpeningAlertsCover` | src/engine.py:38-47 | An opening iteration notifies each match with odds and nothing else. |
| `Engine.OpeningEngine.constructor` | src/engine.py:8-22 | The engine starts with an empty cache and nothing sent. |
| `Engine.OpeningEngine.ProcessLiveMatch` | src/engine.py:63-83 | See the three points below. |
| `Engine.OpeningEngine.ProcessLiveBatch` | src/engine.py:63-86 | Each new notification is a live alert the sink accepted, for a match of the batch, appended in order. Every new cache entry is the fingerprint of a batch match. The cache stays within 100. |
| `Engine.OpeningEngine.ProcessOpeningBatch` | src/engine.py:38-50 | When the sink accepts every alert, the iteration completes and sends exactly the alerts for the matches with odds, in order. Otherwise it stops at the first rejected alert, having sent the alerts before it. |
| `Engine.OpeningEngine.MonitorLiveOnce` | src/engine.py:57-86 | One live iteration notifies only matches with odds from the running or recent fetch. Earlier notifications are kept. |
| `Engine.OpeningEngine.MonitorOpeningOnce` | src/engine.py:34-50 | One opening iteration completes iff the sink accepts every alert for the upcoming fetch, and then sends exactly those alerts. Otherwise it stops at the first rejected alert, having sent the alerts before it. An empty fetch sends nothing. |
| `Engine.RepeatNotifiesOnce` | src/engine.py:66-79 | Processing the same match twice, with room in the cache, notifies it at most once. |
| `HealthCheck.CheckProvider` | src/health_check.py:40-46 | The token is checked only with provider `PANDASCORE`: missing is an error, under 20 characters a warning. |
| `HealthCheck.CheckTelegram` | src/health_check.py:49-55 | A missing bot token and a missing chat id each add one warning. |
| `HealthCheck.CheckThreshold` | src/health_check.py:58-63 | An unparsable threshold is an error. A parsed one outside (0, 1) is a warning. |
| `HealthCheck.CheckInterval` | src/health_check.py:65-70 | An unparsable interval is an error. A parsed one below 10 is a warning. |
| `HealthCheck.CheckOracleDir` | src/health_check.py:72-79 | A missing data directory is created: success adds a warning naming it, failure adds an error with the exception's message. |
| `HealthCheck.ValidateConfig` | src/health_check.py:34-81 | The two lists are exactly the specified errors and warnings. |
| `HealthCheck.TelegramOrdered` | src/health_check.py:52-55 | The Telegram warnings are warnings, in check order. |
| `HealthCheck.ErrorsOrdered` | src/health_check.py:36-81 | Every error is an error kind, at most one per check, in check order. |
| `HealthCheck.WarningsOrdered` | src/health_check.py:36-81 | Every warning is a warning kind, at most one per check, in check order. |
| `HealthCheck.ErrorsExact` | src/health_check.py:40-79 | Each error is present iff its condition holds. There is an error iff the settings are fatal: a missing Pandascore token, an unparsable number, or a directory that could not be created. |
| `HealthCheck.WarningsExact` | src/health_check.py:40-79 | Each warning is present iff its condition holds, and a directory warning names the configured directory. |
| `HealthCheck.StartupGate` | src/health_check.py:122-130 | Startup exits with 1 iff the settings are fatal, and otherwise goes on to build the engine. |

`Engine.OpeningEngine.ProcessLiveMatch` promises three things:

- A match is notified iff its scan succeeds with opportunities, its fingerprint is not cached, and
  the sink accepts the alert.
- The fingerprint is cached only after the alert is accepted. Above 100 entries the cache becomes
  50 of its own entries, so it always stays within 100.
- It fails exactly when the scan or the sink raises.

## Left out

- Network I/O: the HTTP exchange is not modelled. A fetch is given the outcome of its request.
  `get_leagues_info` is not modelled; it only lists leagues for debugging.
- Asynchronous scheduling is not modelled: `asyncio.gather`, the `while True` loops, `asyncio.sleep`
  and the `MockProvider` latency. Each cycle is modelled as one iteration over a given batch.
- The exception handlers that log and go on to the next iteration are not modelled. An iteration
  that raises is reported by a `false` result.
- Logging and `print` output are not modelled.
- Python's `hash` is not computed. It is a fixed function field of the engine (`fingerprint`).
  Which 50 cache entries survive a trim is left open, because it depends on set iteration order.
- Floating point is not modelled: prices are exact reals. The one float overflow modelled is
  `math.factorial(k)` failing to convert to a float from k = 171, which raises `OverflowError`;
  no other overflow or underflow is. `round(x, 2)` is round-half-even on the
  exact value, and IEEE representation error is not modelled. `math.exp` is a parameter whose only
  known property is positivity.
- Parsing: `float()` and `int()` parsing in `validate_config` are parameters. So are
  `os.path.exists` and `os.makedirs`, the latter giving the exception's message when it fails.
- JSON values of the wrong type or `null` are not modelled (an opponent that is not an object, a
  `null` league, `null` odds). In the source these raise inside the fetch's `try`, so the fetch
  yields `[]`. Raw records here are typed, with absent keys as `None`.
- Strings: letters and digits are ASCII. Unicode case mapping in `lower()`/`title()` is not
  modelled. `isspace` is modelled for the code points Python treats as whitespace.
- `src/providers.py`, `src/notifier.py`, `src/models.py`, `src/db.py`, `src/oracle.py` and
  `main.py` are not part of this model. Of `src/health_check.py`, `setup_logging`, `print_banner`,
  `print_config`, the `input()` confirmation after more than two warnings, and the engine run
  after the gate are not modelled.
- The engine's own `monitored_leagues` and poll intervals (`src/engine.py:13-19`) are not
  modelled. They are read but never used by the modelled logic.
- FairOdds.FairOddsFor: total; for a line of 171 or more it returns prices where the source
  raises `OverflowError`, because the raise is modelled once, by `SumOverflows`, in the kills
  scan that calls it.
- Engine.EdgePositive: the edge is proved positive only for thresholds of at least 1/20000. For
  smaller positive thresholds, `round(…, 2)` can give 0.0 for a flagged opportunity
  (`Engine.EdgeRoundsToZero`).
- Engine.OpeningEngine.ProcessLiveBatch: the exact sequence of live alerts is not stated. It
  promises that each new alert is accepted, belongs to a batch match and is appended, and bounds
  the new cache entries by the batch's fingerprints. The exact behaviour per match is stated by
  `Engine.OpeningEngine.ProcessLiveMatch`.
- Engine.OpeningEngine.MonitorLiveOnce: states the same per-alert facts as `ProcessLiveBatch`,
  over the merged fetch results.
