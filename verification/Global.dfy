/** Process-wide state: the log flag and the application list, under any outcome of the environment. */
module Global {
  import opened Common

  const LEVELS: int := 4
  const LOG_INFO: int := 2

  /** What the environment does: set the log file, set the level, accept the address, set up the daemon
      connection, connect in time. */
  datatype Env = Env(file: bool, level: bool, address: bool, daemon: bool, connect: bool)

  datatype State = State(logConfigured: bool, appList: bool)

  datatype Call =
    | ConfigureLog(filename: Option<string>, level: int, env: Env)
    | Init(env: Env)
    | EnsureInit(env: Env)
    | Shutdown

  datatype Outcome = Outcome(state: State, ret: bool)

  /** newrelic_configure_log; the level is compared as an unsigned number. */
  function Configure(g: State, filename: Option<string>, level: int, env: Env): Outcome {
    if filename.Some? && 0 <= level < LEVELS && env.file && env.level then Outcome(g.(logConfigured := true), true)
    else Outcome(g, false)
  }

  /** newrelic_do_init: configures logging first when nobody has. */
  function DoInit(g: State, env: Env): Outcome {
    var log := if g.logConfigured then Outcome(g, true) else Configure(g, Some("stderr"), LOG_INFO, env);
    if log.ret && env.address && env.daemon && env.connect then Outcome(log.state.(appList := true), true)
    else Outcome(log.state, false)
  }

  function Step(g: State, c: Call): Outcome {
    match c
    case ConfigureLog(filename, level, env) => Configure(g, filename, level, env)
    case Init(env) => if g.appList then Outcome(g, false) else DoInit(g, env)
    case EnsureInit(env) => if g.appList then Outcome(g, true) else DoInit(g, env)
    case Shutdown => Outcome(State(false, false), true)
  }

  const START := State(false, false)

  function Run(g: State, cs: seq<Call>): State
    decreases |cs|
  {
    if cs == [] then g else Step(Run(g, cs[..|cs| - 1]), cs[|cs| - 1]).state
  }

  /** Exactly when each call succeeds, and what it leaves. */
  lemma OutcomesMean(g: State, c: Call)
    ensures var r := Step(g, c);
            match c
            case ConfigureLog(filename, level, env) =>
              && (r.ret <==> filename.Some? && level in {0, 1, 2, 3} && env.file && env.level)
              && r.state.appList == g.appList && (r.state.logConfigured <==> g.logConfigured || r.ret)
            case Init(env) =>
              && (r.ret <==> !g.appList && (g.logConfigured || (env.file && env.level)) && env.address && env.daemon && env.connect)
              && (r.state.appList <==> g.appList || r.ret)
            case EnsureInit(env) =>
              && (r.ret <==> g.appList || ((g.logConfigured || (env.file && env.level)) && env.address && env.daemon && env.connect))
              && r.state.appList == r.ret
            case Shutdown => !r.state.appList && !r.state.logConfigured
  {
  }

  // ---------------------------------------------------------------------
  // Every run
  // ---------------------------------------------------------------------

  predicate Ok(g: State) { g.appList ==> g.logConfigured }

  lemma {:induction false} RunKeepsOk(cs: seq<Call>)
    ensures Ok(Run(START, cs))
    decreases |cs|
  {
    if cs != [] { RunKeepsOk(cs[..|cs| - 1]); }
  }

  /** Application lists created in a run, and init calls that succeeded. */
  function Created(g: State, cs: seq<Call>): nat
    decreases |cs|
  {
    if cs == [] then 0
    else
      var h := Run(g, cs[..|cs| - 1]);
      Created(g, cs[..|cs| - 1]) + if !h.appList && Step(h, cs[|cs| - 1]).state.appList then 1 else 0
  }

  function InitsSucceeded(g: State, cs: seq<Call>): nat
    decreases |cs|
  {
    if cs == [] then 0
    else
      var h, c := Run(g, cs[..|cs| - 1]), cs[|cs| - 1];
      InitsSucceeded(g, cs[..|cs| - 1]) + if c.Init? && Step(h, c).ret then 1 else 0
  }

  /** Lists destroyed by shutdowns. */
  function Destroyed(g: State, cs: seq<Call>): nat
    decreases |cs|
  {
    if cs == [] then 0
    else
      var h := Run(g, cs[..|cs| - 1]);
      Destroyed(g, cs[..|cs| - 1]) + if h.appList && cs[|cs| - 1].Shutdown? then 1 else 0
  }

  predicate NoShutdown(cs: seq<Call>) { forall i :: 0 <= i < |cs| ==> !cs[i].Shutdown? }

  /** Lists are conserved: each one created is destroyed or is the one that exists. */
  lemma {:induction false} ListsConserved(g: State, cs: seq<Call>)
    ensures Created(g, cs) + (if g.appList then 1 else 0) == Destroyed(g, cs) + if Run(g, cs).appList then 1 else 0
    ensures InitsSucceeded(g, cs) <= Created(g, cs)
    decreases |cs|
  {
    if cs != [] { ListsConserved(g, cs[..|cs| - 1]); }
  }

  lemma {:induction false} NothingDestroyed(g: State, cs: seq<Call>)
    requires NoShutdown(cs)
    ensures Destroyed(g, cs) == 0
    decreases |cs|
  {
    if cs != [] { NothingDestroyed(g, cs[..|cs| - 1]); }
  }

  /** After any run, until the next shutdown, at most one list is created and init succeeds at most once; and
      neither happens where a list exists already. */
  lemma OncePerShutdown(before: seq<Call>, cs: seq<Call>)
    requires NoShutdown(cs)
    ensures var g := Run(START, before);
            && InitsSucceeded(g, cs) <= Created(g, cs) <= 1
            && (g.appList ==> Created(g, cs) == 0)
            && (Run(g, cs).appList <==> g.appList || Created(g, cs) == 1)
  {
    var g := Run(START, before);
    ListsConserved(g, cs);
    NothingDestroyed(g, cs);
  }

  /** Once initialised and until a shutdown, ensure_init returns true and changes nothing, and init fails and
      changes nothing, whatever the environment would have done. */
  lemma {:induction false} EffectFreeOnceInitialised(g: State, cs: seq<Call>, env: Env)
    requires g.appList && NoShutdown(cs)
    ensures var h := Run(g, cs);
            && Step(h, EnsureInit(env)) == Outcome(h, true)
            && Step(h, Init(env)) == Outcome(h, false)
    decreases |cs|
  {
    if cs != [] { EffectFreeOnceInitialised(g, cs[..|cs| - 1], env); }
  }

  // ---------------------------------------------------------------------
  // In place
  // ---------------------------------------------------------------------

  class Process {
    var logConfigured: bool
    var appList: bool           // nr_agent_applist is not NULL

    ghost function Value(): State
      reads this
    {
      State(logConfigured, appList)
    }

    constructor ()
      ensures Value() == START
    {
      logConfigured, appList := false, false;
    }

    method ConfigureLog(filename: Option<string>, level: int, env: Env) returns (ret: bool)
      modifies this`logConfigured
      ensures Outcome(Value(), ret) == Step(old(Value()), Call.ConfigureLog(filename, level, env))
    {
      if filename.None? || level < 0 || level >= LEVELS || !env.file || !env.level {
        return false;
      }
      logConfigured := true;
      ret := true;
    }

    method DoInitialise(env: Env) returns (ret: bool)
      modifies this
      ensures Outcome(Value(), ret) == DoInit(old(Value()), env)
    {
      if !logConfigured {
        var ok := ConfigureLog(Some("stderr"), LOG_INFO, env);
        if !ok {
          return false;
        }
      }
      if !env.address || !env.daemon || !env.connect {
        return false;
      }
      appList := true;
      ret := true;
    }

    method Initialise(env: Env) returns (ret: bool)
      modifies this
      ensures Outcome(Value(), ret) == Step(old(Value()), Init(env))
    {
      if appList {
        return false;
      }
      ret := DoInitialise(env);
    }

    method EnsureInitialised(env: Env) returns (ret: bool)
      modifies this
      ensures Outcome(Value(), ret) == Step(old(Value()), EnsureInit(env))
    {
      if appList {
        return true;
      }
      ret := DoInitialise(env);
    }

    method ShutDown()
      modifies this
      ensures Value() == Step(old(Value()), Shutdown).state
    {
      appList := false;
      logConfigured := false;
    }
  }
}
