/**
  Logger construction (pkg/logger/slog.go).

  `NewSlogLogger` reads the configured level name, maps it to one of slog's
  four levels with an exact, case-sensitive match that falls back to Info,
  and builds JSON handler options that always record the source position.
*/
module Logger {
  import Config

  /** slog's levels; `Severity` is slog's integer value for each. */
  datatype Level = Debug | Info | Warn | Error

  function Severity(l: Level): int {
    match l
    case Debug => -4
    case Info => 0
    case Warn => 4
    case Error => 8
  }

  /** The level switch of `NewSlogLogger`. */
  function ParseLevel(name: string): (l: Level)
    ensures l == Debug <==> name == "debug"
    ensures l == Warn <==> name == "warn"
    ensures l == Error <==> name == "error"
    ensures l == Info <==> name != "debug" && name != "warn" && name != "error"
  {
    match name
    case "debug" => Debug
    case "info" => Info
    case "warn" => Warn
    case "error" => Error
    case _ => Info
  }

  /** The configuration name that selects each level. */
  function LevelName(l: Level): string {
    match l
    case Debug => "debug"
    case Info => "info"
    case Warn => "warn"
    case Error => "error"
  }

  /** Every level can be selected, by its own name. */
  lemma ParseLevelName(l: Level)
    ensures ParseLevel(LevelName(l)) == l
  {
  }

  /**
    The names are the only strings that keep their meaning: parsing a name
    and printing the level back gives the name exactly when it is one of the
    four names.
  */
  lemma NamesAreExact(name: string)
    ensures LevelName(ParseLevel(name)) == name <==> name in {"debug", "info", "warn", "error"}
  {
  }

  predicate HasUpper(s: string) {
    exists i | 0 <= i < |s| :: 'A' <= s[i] <= 'Z'
  }

  /** Matching is case-sensitive: a name with any upper-case letter ("DEBUG", "Warn") selects Info. */
  lemma UpperCaseNamesSelectInfo(name: string)
    requires HasUpper(name)
    ensures ParseLevel(name) == Info
  {
    var i :| 0 <= i < |name| && 'A' <= name[i] <= 'Z';
  }

  /** `slog.HandlerOptions` as `NewSlogLogger` builds them. */
  datatype HandlerOptions = HandlerOptions(addSource: bool, level: Level)

  function NewHandlerOptions(cfg: Config.LoggerConfig): (opts: HandlerOptions)
    ensures opts.addSource
    ensures opts.level == ParseLevel(cfg.level)
  {
    HandlerOptions(true, ParseLevel(cfg.level))
  }

  /** slog's handler records a record exactly when its level is at least the configured one. */
  predicate Enabled(opts: HandlerOptions, l: Level) {
    Severity(l) >= Severity(opts.level)
  }

  /** A handler at level Info records every level except Debug. */
  lemma InfoDropsOnlyDebug(opts: HandlerOptions)
    requires opts.level == Info
    ensures forall l :: Enabled(opts, l) <==> l != Debug
  {
  }

  /** With the default configuration the logger records Info and above, and drops Debug. */
  lemma DefaultLoggerLevelIsInfo()
    ensures var r := Config.Unmarshal(Config.DefaultTable);
      && r.Success?
      && NewHandlerOptions(r.value.logger).level == Info
      && forall l :: Enabled(NewHandlerOptions(r.value.logger), l) <==> l != Debug
  {
    Config.DefaultLoggerLevel();
    var r := Config.Unmarshal(Config.DefaultTable);
    InfoDropsOnlyDebug(NewHandlerOptions(r.value.logger));
  }
}
