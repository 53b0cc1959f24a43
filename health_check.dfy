/** `validate_config` and the error gate of `main` (src/health_check.py). The process
    environment is a map; `float()`, `int()`, `os.path.exists` and `os.makedirs` are
    parameters. */
module HealthCheck {

  import opened Base

  /** One message of `validate_config`: the first four kinds go to `errors`, the rest to
      `warnings`. */
  datatype Issue =
    | TokenMissing
    | ThresholdNotNumber
    | IntervalNotInteger
    | DirFailed(reason: string)
    | TokenShort
    | TelegramTokenMissing
    | TelegramChatMissing
    | ThresholdOutOfRange
    | IntervalTooLow
    | DirCreated(dir: string)

  predicate IsError(i: Issue)
  {
    i.TokenMissing? || i.ThresholdNotNumber? || i.IntervalNotInteger? || i.DirFailed?
  }

  /** The position of the check that emits a message: messages come in this order. */
  function Rank(i: Issue): nat
  {
    match i
    case TokenMissing => 0
    case TokenShort => 0
    case TelegramTokenMissing => 1
    case TelegramChatMissing => 2
    case ThresholdNotNumber => 3
    case ThresholdOutOfRange => 3
    case IntervalNotInteger => 4
    case IntervalTooLow => 4
    case DirFailed(_) => 5
    case DirCreated(_) => 5
  }

  /** Python's `not value` for an optional setting: unset or empty. */
  predicate Falsy(v: Option<string>)
  {
    v.None? || v.value == ""
  }

  predicate UsesPandascore(env: map<string, string>)
  {
    Lookup(env, "ODDS_PROVIDER") == Some("PANDASCORE")
  }

  function ThresholdText(env: map<string, string>): string
  {
    GetOr(Lookup(env, "EDGE_THRESHOLD"), "0.05")
  }

  function IntervalText(env: map<string, string>): string
  {
    GetOr(Lookup(env, "POLL_INTERVAL_SECONDS"), "60")
  }

  function OracleDir(env: map<string, string>): string
  {
    GetOr(Lookup(env, "ORACLE_DATA_DIR"), "./oracle_csvs")
  }

  /** In check order, without repeats. */
  predicate Ordered(issues: seq<Issue>)
  {
    forall i, j :: 0 <= i < j < |issues| ==> Rank(issues[i]) < Rank(issues[j])
  }

  /** The settings that stop the bot: a missing Pandascore token when that provider is
      selected, a threshold or interval that does not parse, or a data directory that
      cannot be created. */
  predicate Fatal(env: map<string, string>, parseFloat: string -> Option<real>, parseInt: string -> Option<int>,
                  dirExists: string -> bool, makeDir: string -> Option<string>)
  {
    (UsesPandascore(env) && Falsy(Lookup(env, "PANDASCORE_TOKEN")))
    || parseFloat(ThresholdText(env)).None?
    || parseInt(IntervalText(env)).None?
    || (!dirExists(OracleDir(env)) && makeDir(OracleDir(env)).Some?)
  }

  // Each check of `validate_config` contributes at most one message to each list.

  function TokenErrors(env: map<string, string>): seq<Issue>
  {
    if UsesPandascore(env) && Falsy(Lookup(env, "PANDASCORE_TOKEN")) then [TokenMissing] else []
  }

  function TokenWarnings(env: map<string, string>): seq<Issue>
  {
    var token := Lookup(env, "PANDASCORE_TOKEN");
    if UsesPandascore(env) && !Falsy(token) && |token.value| < 20 then [TokenShort] else []
  }

  function TelegramWarnings(env: map<string, string>): seq<Issue>
  {
    (if Falsy(Lookup(env, "TELEGRAM_BOT_TOKEN")) then [TelegramTokenMissing] else [])
    + (if Falsy(Lookup(env, "TELEGRAM_CHAT_ID")) then [TelegramChatMissing] else [])
  }

  function ThresholdErrors(env: map<string, string>, parseFloat: string -> Option<real>): seq<Issue>
  {
    if parseFloat(ThresholdText(env)).None? then [ThresholdNotNumber] else []
  }

  function ThresholdWarnings(env: map<string, string>, parseFloat: string -> Option<real>): seq<Issue>
  {
    var t := parseFloat(ThresholdText(env));
    if t.Some? && (t.value <= 0.0 || t.value >= 1.0) then [ThresholdOutOfRange] else []
  }

  function IntervalErrors(env: map<string, string>, parseInt: string -> Option<int>): seq<Issue>
  {
    if parseInt(IntervalText(env)).None? then [IntervalNotInteger] else []
  }

  function IntervalWarnings(env: map<string, string>, parseInt: string -> Option<int>): seq<Issue>
  {
    var n := parseInt(IntervalText(env));
    if n.Some? && n.value < 10 then [IntervalTooLow] else []
  }

  function DirErrors(env: map<string, string>, dirExists: string -> bool, makeDir: string -> Option<string>): seq<Issue>
  {
    var dir := OracleDir(env);
    if !dirExists(dir) && makeDir(dir).Some? then [DirFailed(makeDir(dir).value)] else []
  }

  function DirWarnings(env: map<string, string>, dirExists: string -> bool, makeDir: string -> Option<string>): seq<Issue>
  {
    var dir := OracleDir(env);
    if !dirExists(dir) && makeDir(dir).None? then [DirCreated(dir)] else []
  }

  /** The `errors` list, in check order. */
  function ConfigErrors(env: map<string, string>, parseFloat: string -> Option<real>, parseInt: string -> Option<int>,
                        dirExists: string -> bool, makeDir: string -> Option<string>): seq<Issue>
  {
    TokenErrors(env) + ThresholdErrors(env, parseFloat) + IntervalErrors(env, parseInt)
    + DirErrors(env, dirExists, makeDir)
  }

  /** The `warnings` list, in check order. */
  function ConfigWarnings(env: map<string, string>, parseFloat: string -> Option<real>, parseInt: string -> Option<int>,
                          dirExists: string -> bool, makeDir: string -> Option<string>): seq<Issue>
  {
    TokenWarnings(env) + TelegramWarnings(env) + ThresholdWarnings(env, parseFloat)
    + IntervalWarnings(env, parseInt) + DirWarnings(env, dirExists, makeDir)
  }

  /** `validate_config`. `parseFloat`/`parseInt` give nothing where `float()`/`int()` raise
      `ValueError`; `makeDir` gives the message of the exception `os.makedirs` raises, or
      nothing when it succeeds. Messages are appended in check order, never removed;
      each block of checks is a method of its own below. */
  method ValidateConfig(env: map<string, string>, parseFloat: string -> Option<real>,
                        parseInt: string -> Option<int>, dirExists: string -> bool,
                        makeDir: string -> Option<string>)
    returns (errors: seq<Issue>, warnings: seq<Issue>)
    ensures errors == ConfigErrors(env, parseFloat, parseInt, dirExists, makeDir)
    ensures warnings == ConfigWarnings(env, parseFloat, parseInt, dirExists, makeDir)
  {
    errors := [];
    warnings := [];
    errors, warnings := CheckProvider(env, errors, warnings);
    assert errors == TokenErrors(env) && warnings == TokenWarnings(env);
    warnings := CheckTelegram(env, warnings);
    errors, warnings := CheckThreshold(env, parseFloat, errors, warnings);
    errors, warnings := CheckInterval(env, parseInt, errors, warnings);
    errors, warnings := CheckOracleDir(env, dirExists, makeDir, errors, warnings);
  }

  /** The Pandascore token is checked only when that provider is selected. */
  method CheckProvider(env: map<string, string>, errors0: seq<Issue>, warnings0: seq<Issue>)
    returns (errors: seq<Issue>, warnings: seq<Issue>)
    ensures errors == errors0 + TokenErrors(env) && warnings == warnings0 + TokenWarnings(env)
  {
    errors, warnings := errors0, warnings0;
    var provider := Lookup(env, "ODDS_PROVIDER");
    if provider == Some("PANDASCORE") {
      var token := Lookup(env, "PANDASCORE_TOKEN");
      if Falsy(token) {
        errors := errors + [TokenMissing];
      } else if |token.value| < 20 {
        warnings := warnings + [TokenShort];
      }
    }
  }

  /** A missing bot token and a missing chat id are warnings. */
  method CheckTelegram(env: map<string, string>, warnings0: seq<Issue>) returns (warnings: seq<Issue>)
    ensures warnings == warnings0 + TelegramWarnings(env)
  {
    warnings := warnings0;
    var telegramToken := Lookup(env, "TELEGRAM_BOT_TOKEN");
    var telegramChat := Lookup(env, "TELEGRAM_CHAT_ID");
    if Falsy(telegramToken) {
      warnings := warnings + [TelegramTokenMissing];
    }
    if Falsy(telegramChat) {
      warnings := warnings + [TelegramChatMissing];
    }
  }

  /** `EDGE_THRESHOLD` (default `0.05`) must parse, and should lie strictly between 0 and 1. */
  method CheckThreshold(env: map<string, string>, parseFloat: string -> Option<real>,
                        errors0: seq<Issue>, warnings0: seq<Issue>)
    returns (errors: seq<Issue>, warnings: seq<Issue>)
    ensures errors == errors0 + ThresholdErrors(env, parseFloat)
    ensures warnings == warnings0 + ThresholdWarnings(env, parseFloat)
  {
    errors, warnings := errors0, warnings0;
    var edgeThreshold := parseFloat(ThresholdText(env));
    if edgeThreshold.None? {
      errors := errors + [ThresholdNotNumber];
    } else if edgeThreshold.value <= 0.0 || edgeThreshold.value >= 1.0 {
      warnings := warnings + [ThresholdOutOfRange];
    }
  }

  /** `POLL_INTERVAL_SECONDS` (default `60`) must parse, and should be at least 10. */
  method CheckInterval(env: map<string, string>, parseInt: string -> Option<int>,
                       errors0: seq<Issue>, warnings0: seq<Issue>)
    returns (errors: seq<Issue>, warnings: seq<Issue>)
    ensures errors == errors0 + IntervalErrors(env, parseInt)
    ensures warnings == warnings0 + IntervalWarnings(env, parseInt)
  {
    errors, warnings := errors0, warnings0;
    var pollInterval := parseInt(IntervalText(env));
    if pollInterval.None? {
      errors := errors + [IntervalNotInteger];
    } else if pollInterval.value < 10 {
      warnings := warnings + [IntervalTooLow];
    }
  }

  /** A missing `ORACLE_DATA_DIR` (default `./oracle_csvs`) is created: a warning when
      that works, an error when it raises. */
  method CheckOracleDir(env: map<string, string>, dirExists: string -> bool, makeDir: string -> Option<string>,
                        errors0: seq<Issue>, warnings0: seq<Issue>)
    returns (errors: seq<Issue>, warnings: seq<Issue>)
    ensures errors == errors0 + DirErrors(env, dirExists, makeDir)
    ensures warnings == warnings0 + DirWarnings(env, dirExists, makeDir)
  {
    errors, warnings := errors0, warnings0;
    var oracleDir := OracleDir(env);
    if !dirExists(oracleDir) {
      var failure := makeDir(oracleDir);
      if failure.None? {
        warnings := warnings + [DirCreated(oracleDir)];
      } else {
        errors := errors + [DirFailed(failure.value)];
      }
    }
  }

  /** Two ordered lists, the first ranked below `k` and the second from `k` on, make an
      ordered list. */
  lemma OrderedConcat(x: seq<Issue>, y: seq<Issue>, k: nat)
    requires Ordered(x) && Ordered(y)
    requires forall i :: i in x ==> Rank(i) < k
    requires forall i :: i in y ==> Rank(i) >= k
    ensures Ordered(x + y)
  {
    var xy := x + y;
    forall i, j | 0 <= i < j < |xy| ensures Rank(xy[i]) < Rank(xy[j]) {
      if j < |x| {
        assert xy[i] == x[i] && xy[j] == x[j];
      } else if i < |x| {
        assert xy[i] in x && xy[j] == y[j - |x|] && y[j - |x|] in y;
      } else {
        assert xy[i] == y[i - |x|] && xy[j] == y[j - |x|];
      }
    }
  }

  /** Every message of a list is ranked below `k`; every one is an error, or none is. */
  predicate RankedBelow(issues: seq<Issue>, k: nat, errors: bool)
  {
    Ordered(issues) && forall i :: i in issues ==> Rank(i) < k && IsError(i) == errors
  }

  lemma TokenThresholdErrors(env: map<string, string>, parseFloat: string -> Option<real>)
    ensures RankedBelow(TokenErrors(env) + ThresholdErrors(env, parseFloat), 4, true)
  {
    OrderedConcat(TokenErrors(env), ThresholdErrors(env, parseFloat), 3);
  }

  lemma FirstErrors(env: map<string, string>, parseFloat: string -> Option<real>, parseInt: string -> Option<int>)
    ensures RankedBelow(TokenErrors(env) + ThresholdErrors(env, parseFloat) + IntervalErrors(env, parseInt), 5, true)
  {
    TokenThresholdErrors(env, parseFloat);
    OrderedConcat(TokenErrors(env) + ThresholdErrors(env, parseFloat), IntervalErrors(env, parseInt), 4);
  }

  /** The errors are error kinds, in check order. */
  lemma ErrorsOrdered(env: map<string, string>, parseFloat: string -> Option<real>, parseInt: string -> Option<int>,
                      dirExists: string -> bool, makeDir: string -> Option<string>)
    ensures RankedBelow(ConfigErrors(env, parseFloat, parseInt, dirExists, makeDir), 6, true)
  {
    FirstErrors(env, parseFloat, parseInt);
    OrderedConcat(TokenErrors(env) + ThresholdErrors(env, parseFloat) + IntervalErrors(env, parseInt),
                  DirErrors(env, dirExists, makeDir), 5);
  }

  /** Each error comes from its condition: a missing token (only with the Pandascore
      provider), an unparsable threshold or interval, a directory that could not be
      created. There is an error exactly when the settings are fatal. */
  lemma ErrorsExact(env: map<string, string>, parseFloat: string -> Option<real>, parseInt: string -> Option<int>,
                    dirExists: string -> bool, makeDir: string -> Option<string>)
    ensures var errors := ConfigErrors(env, parseFloat, parseInt, dirExists, makeDir);
            && (TokenMissing in errors <==> UsesPandascore(env) && Falsy(Lookup(env, "PANDASCORE_TOKEN")))
            && (ThresholdNotNumber in errors <==> parseFloat(ThresholdText(env)).None?)
            && (IntervalNotInteger in errors <==> parseInt(IntervalText(env)).None?)
            && (forall i :: i in errors && i.DirFailed? ==>
                  !dirExists(OracleDir(env)) && makeDir(OracleDir(env)) == Some(i.reason))
            && (!dirExists(OracleDir(env)) && makeDir(OracleDir(env)).Some? ==>
                  DirFailed(makeDir(OracleDir(env)).value) in errors)
            && (errors != [] <==> Fatal(env, parseFloat, parseInt, dirExists, makeDir))
  {
    var a, b := TokenErrors(env), ThresholdErrors(env, parseFloat);
    var c, d := IntervalErrors(env, parseInt), DirErrors(env, dirExists, makeDir);
    var errors := a + b + c + d;
    forall i | i in errors ensures i in a || i in b || i in c || i in d {
    }
  }

  lemma TelegramOrdered(env: map<string, string>)
    ensures RankedBelow(TelegramWarnings(env), 3, false)
    ensures forall i :: i in TelegramWarnings(env) ==> Rank(i) >= 1
  {
    var t1 := if Falsy(Lookup(env, "TELEGRAM_BOT_TOKEN")) then [TelegramTokenMissing] else [];
    var t2 := if Falsy(Lookup(env, "TELEGRAM_CHAT_ID")) then [TelegramChatMissing] else [];
    OrderedConcat(t1, t2, 2);
  }

  lemma FirstWarnings(env: map<string, string>, parseFloat: string -> Option<real>)
    ensures RankedBelow(TokenWarnings(env) + TelegramWarnings(env) + ThresholdWarnings(env, parseFloat), 4, false)
  {
    TelegramOrdered(env);
    OrderedConcat(TokenWarnings(env), TelegramWarnings(env), 1);
    OrderedConcat(TokenWarnings(env) + TelegramWarnings(env), ThresholdWarnings(env, parseFloat), 3);
  }

  lemma MoreWarnings(env: map<string, string>, parseFloat: string -> Option<real>, parseInt: string -> Option<int>)
    ensures RankedBelow(TokenWarnings(env) + TelegramWarnings(env) + ThresholdWarnings(env, parseFloat)
                        + IntervalWarnings(env, parseInt), 5, false)
  {
    FirstWarnings(env, parseFloat);
    OrderedConcat(TokenWarnings(env) + TelegramWarnings(env) + ThresholdWarnings(env, parseFloat),
                  IntervalWarnings(env, parseInt), 4);
  }

  /** The warnings are warning kinds, in check order. */
  lemma WarningsOrdered(env: map<string, string>, parseFloat: string -> Option<real>, parseInt: string -> Option<int>,
                        dirExists: string -> bool, makeDir: string -> Option<string>)
    ensures RankedBelow(ConfigWarnings(env, parseFloat, parseInt, dirExists, makeDir), 6, false)
  {
    MoreWarnings(env, parseFloat, parseInt);
    OrderedConcat(TokenWarnings(env) + TelegramWarnings(env) + ThresholdWarnings(env, parseFloat)
                  + IntervalWarnings(env, parseInt), DirWarnings(env, dirExists, makeDir), 5);
  }

  /** Each warning comes from its condition: a short token (only with the Pandascore
      provider), a missing Telegram token or chat, a threshold outside (0, 1), an
      interval under 10, a created directory. */
  lemma WarningsExact(env: map<string, string>, parseFloat: string -> Option<real>, parseInt: string -> Option<int>,
                      dirExists: string -> bool, makeDir: string -> Option<string>)
    ensures var warnings := ConfigWarnings(env, parseFloat, parseInt, dirExists, makeDir);
            && (TokenShort in warnings <==> UsesPandascore(env) && !Falsy(Lookup(env, "PANDASCORE_TOKEN"))
                                            && |Lookup(env, "PANDASCORE_TOKEN").value| < 20)
            && (TelegramTokenMissing in warnings <==> Falsy(Lookup(env, "TELEGRAM_BOT_TOKEN")))
            && (TelegramChatMissing in warnings <==> Falsy(Lookup(env, "TELEGRAM_CHAT_ID")))
            && (ThresholdOutOfRange in warnings <==>
                  parseFloat(ThresholdText(env)).Some?
                  && (parseFloat(ThresholdText(env)).value <= 0.0 || parseFloat(ThresholdText(env)).value >= 1.0))
            && (IntervalTooLow in warnings <==>
                  parseInt(IntervalText(env)).Some? && parseInt(IntervalText(env)).value < 10)
            && (DirCreated(OracleDir(env)) in warnings <==> !dirExists(OracleDir(env)) && makeDir(OracleDir(env)).None?)
            && (forall i :: i in warnings && i.DirCreated? ==> i.dir == OracleDir(env))
  {
    WarningToken(env, parseFloat, parseInt, dirExists, makeDir);
    WarningsTelegram(env, parseFloat, parseInt, dirExists, makeDir);
    WarningThreshold(env, parseFloat, parseInt, dirExists, makeDir);
    WarningInterval(env, parseFloat, parseInt, dirExists, makeDir);
    WarningsDir(env, parseFloat, parseInt, dirExists, makeDir);
  }

  lemma WarningToken(env: map<string, string>, parseFloat: string -> Option<real>, parseInt: string -> Option<int>,
                      dirExists: string -> bool, makeDir: string -> Option<string>)
    ensures TokenShort in ConfigWarnings(env, parseFloat, parseInt, dirExists, makeDir)
            <==> UsesPandascore(env) && !Falsy(Lookup(env, "PANDASCORE_TOKEN"))
                 && |Lookup(env, "PANDASCORE_TOKEN").value| < 20
  {
    var a, b, c := TokenWarnings(env), TelegramWarnings(env), ThresholdWarnings(env, parseFloat);
    var d, e := IntervalWarnings(env, parseInt), DirWarnings(env, dirExists, makeDir);
    MemberOfFive(a, b, c, d, e);
  }

  lemma WarningsTelegram(env: map<string, string>, parseFloat: string -> Option<real>, parseInt: string -> Option<int>,
                      dirExists: string -> bool, makeDir: string -> Option<string>)
    ensures (TelegramTokenMissing in ConfigWarnings(env, parseFloat, parseInt, dirExists, makeDir) <==> Falsy(Lookup(env, "TELEGRAM_BOT_TOKEN")))
            && (TelegramChatMissing in ConfigWarnings(env, parseFloat, parseInt, dirExists, makeDir) <==> Falsy(Lookup(env, "TELEGRAM_CHAT_ID")))
  {
    var a, b, c := TokenWarnings(env), TelegramWarnings(env), ThresholdWarnings(env, parseFloat);
    var d, e := IntervalWarnings(env, parseInt), DirWarnings(env, dirExists, makeDir);
    MemberOfFive(a, b, c, d, e);
    assert TelegramTokenMissing in b <==> Falsy(Lookup(env, "TELEGRAM_BOT_TOKEN"));
    assert TelegramChatMissing in b <==> Falsy(Lookup(env, "TELEGRAM_CHAT_ID"));
  }

  lemma WarningThreshold(env: map<string, string>, parseFloat: string -> Option<real>, parseInt: string -> Option<int>,
                      dirExists: string -> bool, makeDir: string -> Option<string>)
    ensures ThresholdOutOfRange in ConfigWarnings(env, parseFloat, parseInt, dirExists, makeDir)
            <==> parseFloat(ThresholdText(env)).Some?
                 && (parseFloat(ThresholdText(env)).value <= 0.0 || parseFloat(ThresholdText(env)).value >= 1.0)
  {
    var a, b, c := TokenWarnings(env), TelegramWarnings(env), ThresholdWarnings(env, parseFloat);
    var d, e := IntervalWarnings(env, parseInt), DirWarnings(env, dirExists, makeDir);
    MemberOfFive(a, b, c, d, e);
  }

  lemma WarningInterval(env: map<string, string>, parseFloat: string -> Option<real>, parseInt: string -> Option<int>,
                      dirExists: string -> bool, makeDir: string -> Option<string>)
    ensures IntervalTooLow in ConfigWarnings(env, parseFloat, parseInt, dirExists, makeDir)
            <==> parseInt(IntervalText(env)).Some? && parseInt(IntervalText(env)).value < 10
  {
    var a, b, c := TokenWarnings(env), TelegramWarnings(env), ThresholdWarnings(env, parseFloat);
    var d, e := IntervalWarnings(env, parseInt), DirWarnings(env, dirExists, makeDir);
    MemberOfFive(a, b, c, d, e);
  }

  lemma WarningsDir(env: map<string, string>, parseFloat: string -> Option<real>, parseInt: string -> Option<int>,
                      dirExists: string -> bool, makeDir: string -> Option<string>)
    ensures (DirCreated(OracleDir(env)) in ConfigWarnings(env, parseFloat, parseInt, dirExists, makeDir) <==> !dirExists(OracleDir(env)) && makeDir(OracleDir(env)).None?)
            && (forall i :: i in ConfigWarnings(env, parseFloat, parseInt, dirExists, makeDir) && i.DirCreated? ==> i.dir == OracleDir(env))
  {
    var a, b, c := TokenWarnings(env), TelegramWarnings(env), ThresholdWarnings(env, parseFloat);
    var d, e := IntervalWarnings(env, parseInt), DirWarnings(env, dirExists, makeDir);
    MemberOfFive(a, b, c, d, e);
  }

  /** Membership in a list built from five parts. */
  lemma MemberOfFive<T>(a: seq<T>, b: seq<T>, c: seq<T>, d: seq<T>, e: seq<T>)
    ensures forall i :: i in a + b + c + d + e <==> i in a || i in b || i in c || i in d || i in e
  {
  }

  /** How `main` goes on after validation. */
  datatype Startup = Exit(code: int) | StartEngine

  /** The error gate of `main`: with any error it returns 1 before the engine is built;
      otherwise it goes on (the confirmation prompt on more than two warnings is not
      modelled). */
  method StartupGate(env: map<string, string>, parseFloat: string -> Option<real>,
                     parseInt: string -> Option<int>, dirExists: string -> bool,
                     makeDir: string -> Option<string>)
    returns (r: Startup)
    ensures r == Exit(1) <==> Fatal(env, parseFloat, parseInt, dirExists, makeDir)
    ensures r.StartEngine? <==> !Fatal(env, parseFloat, parseInt, dirExists, makeDir)
  {
    var errors, warnings := ValidateConfig(env, parseFloat, parseInt, dirExists, makeDir);
    ErrorsExact(env, parseFloat, parseInt, dirExists, makeDir);
    if errors != [] {
      return Exit(1);
    }
    return StartEngine;
  }
}
