/** Application configuration, the transaction options derived from it, and the copy an application keeps. */
module Config {
  import opened Common

  const LICENSE_SIZE: nat := 40
  const SQL_OFF: int := 0
  const SQL_RAW: int := 1
  const SQL_OBFUSCATED: int := 2
  const APDEX_FAILING: int := 0
  const MILLISECOND: nat := 1000   // in microseconds
  const MICROSECOND: nat := 1

  datatype Reporting = Reporting(enabled: bool, recordSql: int, threshold: nat)

  datatype Tracer = Tracer(enabled: bool, threshold: int, duration: nat, stackTraceThreshold: nat, reporting: Reporting)

  datatype DatastoreTracer = DatastoreTracer(instanceReporting: bool, databaseNameReporting: bool)

  /** newrelic_app_config_t, without the log settings that newrelic_create_app ignores. */
  datatype AppConfig = AppConfig(appName: string, license: string, redirectCollector: string, tracer: Tracer,
                                 datastore: DatastoreTracer, distributedTracing: bool, spanEvents: bool)

  datatype RecordSql = SqlNone | SqlRaw | SqlObfuscated

  /** The fields of nrtxnopt_t that no config touches. */
  datatype Fixed = Fixed(
    analyticsEvents: bool, customEvents: bool, synthetics: bool, errors: bool, requestParams: bool, autorum: bool,
    errorEvents: bool, explainPlans: bool, apdexT: nat, crossProcess: bool, rawExceptionMessages: bool,
    customParameters: bool)

  /** Those that the transaction tracer settings decide. */
  datatype Tracing = Tracing(
    traces: bool, recordSql: RecordSql, slowSql: bool, explainThreshold: nat, stackThreshold: nat,
    thresholdIsApdex: bool, traceThreshold: nat)

  /** nrtxnopt_t, as newrelic_get_default_options sets it. */
  datatype Options = Options(fixed: Fixed, tracing: Tracing, instanceReporting: bool, databaseNameReporting: bool,
                             distributedTracing: bool, spanEvents: bool)

  /** newrelic_validate_recordsql: anything unknown is obfuscated. */
  function ValidateRecordSql(setting: int): RecordSql {
    if setting == SQL_OFF then SqlNone else if setting == SQL_RAW then SqlRaw else SqlObfuscated
  }

  const DEFAULT_TRACER := Tracer(true, APDEX_FAILING, 0, 500000, Reporting(true, SQL_OBFUSCATED, 500000))

  /** newrelic_create_app_config. */
  function CreateAppConfig(appName: Option<string>, license: Option<string>): Option<AppConfig> {
    if appName.None? || license.None? || |license.value| != LICENSE_SIZE then None
    else Some(AppConfig(appName.value, license.value, "", DEFAULT_TRACER, DatastoreTracer(true, true), false, true))
  }

  const DEFAULT_OPTIONS := Options(
    Fixed(true, true, false, true, false, false, true, false, 0, false, true, true),
    Tracing(true, SqlObfuscated, true, 500000, 500000, true, 0), true, true, false, true)

  /** The duration counts only when the threshold is not the apdex. */
  function TracingOf(t: Tracer): Tracing {
    Tracing(t.enabled, ValidateRecordSql(t.reporting.recordSql), t.reporting.enabled, t.reporting.threshold,
            t.stackTraceThreshold, t.threshold == APDEX_FAILING, if t.threshold == APDEX_FAILING then 0 else t.duration)
  }

  /** newrelic_get_transaction_options. */
  function TransactionOptions(config: Option<AppConfig>): Options {
    match config
    case None => DEFAULT_OPTIONS
    case Some(c) =>
      Options(DEFAULT_OPTIONS.fixed, TracingOf(c.tracer), c.datastore.instanceReporting,
              c.datastore.databaseNameReporting, c.distributedTracing, c.spanEvents)
  }

  /** The checks of newrelic_create_app on the caller's config. */
  predicate Accepted(given: AppConfig) {
    given.appName != "" && |given.license| == LICENSE_SIZE
  }

  /** The config an application keeps: a default one with some of the caller's fields copied over. */
  function KeptConfig(given: AppConfig): AppConfig
    requires Accepted(given)
  {
    CreateAppConfig(Some(given.appName), Some(given.license)).value.(
      tracer := given.tracer, distributedTracing := given.distributedTracing, spanEvents := given.spanEvents)
  }

  // ---------------------------------------------------------------------
  // What the options depend on
  // ---------------------------------------------------------------------

  /** Two tracers no transaction can tell apart. */
  predicate SameTracing(a: Tracer, b: Tracer) {
    && a.enabled == b.enabled && a.stackTraceThreshold == b.stackTraceThreshold
    && a.reporting.enabled == b.reporting.enabled && a.reporting.threshold == b.reporting.threshold
    && ValidateRecordSql(a.reporting.recordSql) == ValidateRecordSql(b.reporting.recordSql)
    && (a.threshold == APDEX_FAILING <==> b.threshold == APDEX_FAILING)
    && (a.threshold != APDEX_FAILING ==> a.duration == b.duration)
  }

  /** Two configs give the same options exactly when they agree on tracing, datastore reporting, distributed
      tracing and span events. */
  lemma OptionsEqualIff(a: AppConfig, b: AppConfig)
    ensures TransactionOptions(Some(a)) == TransactionOptions(Some(b))
       <==> SameTracing(a.tracer, b.tracer) && a.datastore == b.datastore
            && a.distributedTracing == b.distributedTracing && a.spanEvents == b.spanEvents
  {
    var x, y := TransactionOptions(Some(a)), TransactionOptions(Some(b));
    if x == y {
      assert x.instanceReporting == y.instanceReporting && x.databaseNameReporting == y.databaseNameReporting;
      assert x.tracing.thresholdIsApdex == y.tracing.thresholdIsApdex;
    }
  }

  /** Every option of a config, one by one. */
  lemma OptionsMean(c: AppConfig)
    ensures var o := TransactionOptions(Some(c));
            && (o.instanceReporting <==> c.datastore.instanceReporting)
            && (o.databaseNameReporting <==> c.datastore.databaseNameReporting)
            && (o.distributedTracing <==> c.distributedTracing) && (o.spanEvents <==> c.spanEvents)
            && (o.tracing.traces <==> c.tracer.enabled) && (o.tracing.slowSql <==> c.tracer.reporting.enabled)
            && o.tracing.explainThreshold == c.tracer.reporting.threshold
            && o.tracing.stackThreshold == c.tracer.stackTraceThreshold
            && (o.tracing.recordSql.SqlNone? <==> c.tracer.reporting.recordSql == 0)
            && (o.tracing.recordSql.SqlRaw? <==> c.tracer.reporting.recordSql == 1)
            && (o.tracing.thresholdIsApdex <==> c.tracer.threshold == 0)
            && (if c.tracer.threshold == 0 then o.tracing.traceThreshold == 0 else o.tracing.traceThreshold == c.tracer.duration)
            && o.fixed.analyticsEvents && o.fixed.customEvents && o.fixed.errors && o.fixed.errorEvents
            && o.fixed.rawExceptionMessages && o.fixed.customParameters
            && !o.fixed.synthetics && !o.fixed.requestParams && !o.fixed.autorum && !o.fixed.explainPlans
            && !o.fixed.crossProcess && o.fixed.apdexT == 0
  {
  }

  /** A config needs a name and a license key of 40 characters, and starts with the documented defaults. */
  lemma ConfigMeans(appName: Option<string>, license: Option<string>)
    ensures var r := CreateAppConfig(appName, license);
            && (r.Some? <==> appName.Some? && license.Some? && |license.value| == 40)
            && (r.Some? ==>
                  var c := r.value;
                  && Some(c.appName) == appName && Some(c.license) == license && c.redirectCollector == ""
                  && c.tracer.enabled && c.tracer.threshold == 0 && c.tracer.duration == 0
                  && c.tracer.stackTraceThreshold == 500000 && c.tracer.reporting.enabled
                  && c.tracer.reporting.threshold == 500000 && c.tracer.reporting.recordSql == 2
                  && c.datastore.instanceReporting && c.datastore.databaseNameReporting
                  && !c.distributedTracing && c.spanEvents)
  {
  }

  /** The defaults without a config are the options of any config as newrelic_create_app_config makes it. */
  lemma DefaultsAgree(appName: Option<string>, license: Option<string>)
    requires CreateAppConfig(appName, license).Some?
    ensures TransactionOptions(CreateAppConfig(appName, license)) == TransactionOptions(None)
  {
  }

  /** Options derived from the application equal those derived from the caller's config on every field but
      instance and database-name reporting, which the application always has as true. */
  lemma AppOptions(given: AppConfig)
    requires Accepted(given)
    ensures TransactionOptions(Some(KeptConfig(given)))
         == TransactionOptions(Some(given)).(instanceReporting := true, databaseNameReporting := true)
  {
  }

  /** So the caller's config is honoured exactly when it asks for both. */
  lemma ConfigHonouredIff(given: AppConfig)
    requires Accepted(given)
    ensures TransactionOptions(Some(KeptConfig(given))) == TransactionOptions(Some(given))
       <==> given.datastore == DatastoreTracer(true, true)
  {
    OptionsEqualIff(KeptConfig(given), given);
  }

  // ---------------------------------------------------------------------
  // In place
  // ---------------------------------------------------------------------

  /** The first half of newrelic_get_default_options, field by field from zero. */
  method FixedDefaults() returns (f: Fixed)
    ensures f == DEFAULT_OPTIONS.fixed
  {
    f := Fixed(false, false, false, false, false, false, false, false, 0, false, false, false);
    f := f.(analyticsEvents := true);
    f := f.(customEvents := true);
    f := f.(errors := true);
    f := f.(errorEvents := true);
    f := f.(rawExceptionMessages := true);
    f := f.(customParameters := true);
  }

  method TracingDefaults() returns (t: Tracing)
    ensures t == DEFAULT_OPTIONS.tracing
  {
    t := Tracing(false, SqlNone, false, 0, 0, false, 0);
    t := t.(traces := true);
    t := t.(recordSql := SqlObfuscated);
    t := t.(slowSql := true);
    t := t.(explainThreshold := 500 * MILLISECOND);
    t := t.(stackThreshold := 500 * MILLISECOND);
    t := t.(thresholdIsApdex := true);
  }

  /** newrelic_get_default_options: the options of no config at all, which are also those of every config that
      newrelic_create_app_config makes. */
  method GetDefaultOptions() returns (opt: Options)
    ensures opt == TransactionOptions(None)
    ensures forall name, license :: CreateAppConfig(name, license).Some? ==>
              opt == TransactionOptions(CreateAppConfig(name, license))
  {
    var fixed := FixedDefaults();
    var tracing := TracingDefaults();
    opt := Options(fixed, tracing, true, true, false, true);
    forall name, license | CreateAppConfig(name, license).Some?
      ensures TransactionOptions(CreateAppConfig(name, license)) == opt
    {
      DefaultsAgree(name, license);
    }
  }

  /** The transaction tracer settings, over the defaults. */
  method SetTracing(t: Tracing, tracer: Tracer) returns (t': Tracing)
    requires t == DEFAULT_OPTIONS.tracing
    ensures t' == TracingOf(tracer)
  {
    t' := t.(traces := tracer.enabled);
    t' := t'.(recordSql := ValidateRecordSql(tracer.reporting.recordSql));
    t' := t'.(slowSql := tracer.reporting.enabled);
    t' := t'.(explainThreshold := tracer.reporting.threshold * MICROSECOND);
    t' := t'.(stackThreshold := tracer.stackTraceThreshold * MICROSECOND);
    if tracer.threshold == APDEX_FAILING {
      t' := t'.(thresholdIsApdex := true);
    } else {
      t' := t'.(thresholdIsApdex := false);
      t' := t'.(traceThreshold := tracer.duration);
    }
  }

  /** newrelic_get_transaction_options, field by field over the defaults. */
  method GetTransactionOptions(config: Option<AppConfig>) returns (opt: Options)
    ensures opt == TransactionOptions(config)
  {
    opt := GetDefaultOptions();
    if config.Some? {
      var c := config.value;
      opt := opt.(instanceReporting := c.datastore.instanceReporting);
      opt := opt.(databaseNameReporting := c.datastore.databaseNameReporting);
      var tracing := SetTracing(opt.tracing, c.tracer);
      opt := opt.(tracing := tracing);
      opt := opt.(distributedTracing := c.distributedTracing);
      opt := opt.(spanEvents := c.spanEvents);
    }
  }

  /** The app's own lock: initialised only by a successful connect. */
  datatype Lock = Raw | Free | Held | Destroyed

  /** newrelic_app_t. */
  class App {
    var config: Option<AppConfig>
    var hasInfo: bool
    var lock: Lock
    var rawLocked: bool     // a lock that was never initialised has been locked

    constructor (given: AppConfig)
      requires Accepted(given)
      ensures config == Some(KeptConfig(given)) && hasInfo && lock == Raw && !rawLocked
    {
      var c := CreateAppConfig(Some(given.appName), Some(given.license)).value;
      c := c.(tracer := given.tracer);
      c := c.(distributedTracing := given.distributedTracing);
      c := c.(spanEvents := given.spanEvents);
      config, hasInfo, lock, rawLocked := Some(c), true, Raw, false;
    }

    /** newrelic_connect_app. */
    method Connect(reachable: bool) returns (ok: bool)
      modifies this`lock
      ensures ok == reachable && lock == if ok then Free else old(lock)
    {
      ok := reachable;
      if ok { lock := Free; }
    }

    /** newrelic_destroy_app: releases the info and the config under the lock. */
    method Destroy()
      modifies this
      ensures config.None? && !hasInfo && lock == Destroyed
      ensures rawLocked == (old(rawLocked) || old(lock) == Raw)
    {
      if lock == Raw { rawLocked := true; }
      lock := Held;
      hasInfo := false;
      config := None;
      lock := Free;
      lock := Destroyed;
    }
  }

  /** newrelic_create_app: `initialised` and `reachable` are what newrelic_ensure_init and the daemon answer.
      `raw` says whether a lock that was never initialised was locked on the way: exactly when the connect fails. */
  method CreateApp(given: Option<AppConfig>, initialised: bool, reachable: bool) returns (app: App?, raw: bool)
    ensures app != null <==> given.Some? && Accepted(given.value) && initialised && reachable
    ensures app != null ==> fresh(app) && app.config == Some(KeptConfig(given.value)) && app.hasInfo && app.lock == Free
    ensures raw <==> given.Some? && Accepted(given.value) && initialised && !reachable
  {
    app, raw := null, false;
    if given.None? || given.value.appName == "" || |given.value.license| != LICENSE_SIZE || !initialised {
      return;
    }
    var a := new App(given.value);
    var ok := a.Connect(reachable);
    if ok {
      app := a;
    } else {
      a.Destroy();
      raw := a.rawLocked;
    }
  }

  // ---------------------------------------------------------------------
  // Starting transactions
  // ---------------------------------------------------------------------

  /** Live resources of newrelic_start_transaction: transaction blocks, option blocks, transaction mutexes. */
  datatype Ledger = Ledger(blocks: nat, options: nat, mutexes: nat)

  /** The environment's answers: the mutex initialises, axiom begins the transaction. */
  datatype Attempt = Attempt(mutex: bool, begin: bool)

  /** newrelic_start_transaction, step by step. */
  method StartTransaction(l: Ledger, a: Attempt) returns (l': Ledger, started: bool)
    ensures started == (a.mutex && a.begin)
    ensures l' == Started(l, a)
  {
    l', started := l.(blocks := l.blocks + 1), false;
    if !a.mutex {
      l' := l'.(blocks := l'.blocks - 1);
      return;
    }
    l' := l'.(mutexes := l'.mutexes + 1);
    l' := l'.(options := l'.options + 1);
    if !a.begin {
      l' := l'.(blocks := l'.blocks - 1);
      return;
    }
    l' := l'.(options := l'.options - 1);
    started := true;
  }

  predicate Failed(a: Attempt) { a.mutex && !a.begin }

  /** What an attempt leaves behind. */
  function Started(l: Ledger, a: Attempt): Ledger {
    if a.mutex && a.begin then l.(blocks := l.blocks + 1, mutexes := l.mutexes + 1)
    else if Failed(a) then l.(options := l.options + 1, mutexes := l.mutexes + 1)
    else l
  }

  function StartAll(l: Ledger, as_: seq<Attempt>): Ledger {
    if as_ == [] then l else Started(StartAll(l, as_[..|as_| - 1]), as_[|as_| - 1])
  }

  function FailedBegins(as_: seq<Attempt>): nat {
    if as_ == [] then 0 else FailedBegins(as_[..|as_| - 1]) + if Failed(as_[|as_| - 1]) then 1 else 0
  }

  /** Every failed begin loses one options block and one mutex, and nothing else does. */
  lemma {:induction false} LeaksAreFailedBegins(as_: seq<Attempt>)
    ensures var l := StartAll(Ledger(0, 0, 0), as_);
            l.options == FailedBegins(as_) && l.mutexes == l.blocks + FailedBegins(as_)
  {
    if as_ != [] { LeaksAreFailedBegins(as_[..|as_| - 1]); }
  }
}
