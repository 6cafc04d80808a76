/**
 * Start-up of the exporter binary (main.go): one on/off flag per registered scraper,
 * the enabled set chosen from those flags, and the early exits before serving.
 */
module Startup {
  import opened Wrappers
  import opened Harbor
  import opened Registry
  import opened Exporter

  /** A boolean command-line flag as declared. */
  datatype Flag = Flag(name: string, default: bool, help: string)

  function FlagName(k: ScraperKind): string
  {
    "collect." + Name(k)
  }

  /** Different scrapers get different flags, so no flag is declared twice. */
  lemma FlagNamesDistinct(a: ScraperKind, b: ScraperKind)
    requires a != b
    ensures FlagName(a) != FlagName(b)
  {
    NamesDistinct(a, b);
    var prefix := "collect.";
    assert (prefix + Name(a))[|prefix|..] == Name(a);
    assert (prefix + Name(b))[|prefix|..] == Name(b);
  }

  /** The flag declared for a scraper: its name, the registry default, and its help. */
  predicate DeclaredFor(flags: map<ScraperKind, Flag>)
  {
    && flags.Keys == Scrapers.Keys
    && forall k :: k in flags ==> flags[k] == Flag(FlagName(k), Scrapers[k], Help(k))
  }

  /** Lines 53-61: iterating the registry (in map order) and declaring a flag per entry. */
  method GenerateScraperFlags() returns (flags: map<ScraperKind, Flag>)
    ensures DeclaredFor(flags)
    ensures forall a, b :: a in flags && b in flags && a != b ==> flags[a].name != flags[b].name
  {
    flags := map[];
    var remaining := Scrapers.Keys;
    while remaining != {}
      invariant remaining <= Scrapers.Keys
      invariant flags.Keys == Scrapers.Keys - remaining
      invariant forall k :: k in flags ==> flags[k] == Flag(FlagName(k), Scrapers[k], Help(k))
      decreases |remaining|
    {
      var k :| k in remaining;
      flags := flags[k := Flag(FlagName(k), Scrapers[k], Help(k))];
      remaining := remaining - {k};
    }
    forall a, b | a in flags && b in flags && a != b
      ensures flags[a].name != flags[b].name
    {
      FlagNamesDistinct(a, b);
    }
  }

  /** A flag's value after parsing: the command line's if given there, else its default. */
  function FlagValue(flag: Flag, commandLine: map<string, bool>): (on: bool)
    ensures flag.name in commandLine ==> on == commandLine[flag.name]
    ensures flag.name !in commandLine ==> on == flag.default
  {
    if flag.name in commandLine then commandLine[flag.name] else flag.default
  }

  /** Lines 76-82: the scrapers whose flag is on, each once, in map iteration order. */
  method SelectEnabled(flags: map<ScraperKind, Flag>, commandLine: map<string, bool>) returns (enabled: seq<ScraperKind>)
    ensures forall k :: k in enabled <==> k in flags && FlagValue(flags[k], commandLine)
    ensures forall i, j :: 0 <= i < j < |enabled| ==> enabled[i] != enabled[j]
  {
    enabled := [];
    var remaining := flags.Keys;
    while remaining != {}
      invariant remaining <= flags.Keys
      invariant forall k :: k in enabled <==> k in flags && k !in remaining && FlagValue(flags[k], commandLine)
      invariant forall i, j :: 0 <= i < j < |enabled| ==> enabled[i] != enabled[j]
      decreases |remaining|
    {
      var k :| k in remaining;
      if FlagValue(flags[k], commandLine) {
        enabled := enabled + [k];
      }
      remaining := remaining - {k};
    }
  }

  /** With no scraper flag on the command line, the enabled scrapers are those the
      registry enables by default: all but replication, which is off, and registries
      and labels, which have no entry and hence no flag. */
  lemma {:induction false} DefaultSelection(flags: map<ScraperKind, Flag>, commandLine: map<string, bool>)
    requires DeclaredFor(flags)
    requires forall k :: FlagName(k) !in commandLine
    ensures forall k :: k in flags && FlagValue(flags[k], commandLine) <==>
                        k != ScrapeReplication && k != ScrapeRegistries && k != ScrapeLables
  {
    DefaultEnablement();
  }

  /** A command-line value for a scraper's flag decides it, whatever the default. */
  lemma CommandLineDecides(flags: map<ScraperKind, Flag>, commandLine: map<string, bool>, k: ScraperKind)
    requires DeclaredFor(flags)
    requires k in Scrapers && FlagName(k) in commandLine
    ensures k in flags && FlagValue(flags[k], commandLine) == commandLine[FlagName(k)]
  {
  }

  datatype StartupError = LogSetupFailed | ExporterFailed(error: NewError)

  /** How `main` ends up: having printed the version, stopped on a fatal error, or
      serving with the constructed exporter and the overriding Harbor version. */
  datatype Outcome = PrintedVersion | Fatal(reason: StartupError) | Serving(config: ExporterConfig, overrideVersion: string)

  /** Lines 40-89 up to registration. `printVersion` is the parsed --version flag,
      `logInitOk` whether `LogInit` succeeded, `overrideVersion` the parsed
      --override-version flag; `parse`, `certPoolOk` and `env` are as for `New`. */
  method Start(commandLine: map<string, bool>, printVersion: bool, logInitOk: bool, overrideVersion: string,
               opts: HarborOpts, parse: string -> Option<UrlParts>, certPoolOk: bool, env: map<string, string>)
    returns (outcome: Outcome)
    ensures printVersion ==> outcome == PrintedVersion
    ensures !printVersion && !logInitOk ==> outcome == Fatal(LogSetupFailed)
    ensures !printVersion && logInitOk && !(AcceptedUrl(parse(Normalize(opts.url))) && certPoolOk) ==>
              outcome == Fatal(ExporterFailed(New(opts, NewMetrics(), [], parse, certPoolOk, env).error))
    ensures outcome.Serving? <==> !printVersion && logInitOk && AcceptedUrl(parse(Normalize(opts.url))) && certPoolOk
    ensures outcome.Serving? ==>
              && outcome.overrideVersion == overrideVersion
              && Ok(outcome.config) == New(opts, NewMetrics(), outcome.config.scrapers, parse, certPoolOk, env)
              && (forall k :: k in outcome.config.scrapers <==> k in Scrapers && FlagValue(Flag(FlagName(k), Scrapers[k], Help(k)), commandLine))
              && (forall i, j :: 0 <= i < j < |outcome.config.scrapers| ==> outcome.config.scrapers[i] != outcome.config.scrapers[j])
  {
    var flags := GenerateScraperFlags();
    if printVersion {
      return PrintedVersion;
    }
    if !logInitOk {
      return Fatal(LogSetupFailed);
    }
    var enabled := SelectEnabled(flags, commandLine);
    match New(opts, NewMetrics(), enabled, parse, certPoolOk, env)
    case Err(e) =>
      outcome := Fatal(ExporterFailed(e));
    case Ok(config) =>
      outcome := Serving(config, overrideVersion);
  }
}
