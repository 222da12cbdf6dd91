/**
 The process-wide state of the facade: the active handler `h` and the last
 applied configuration `c`, and the two operations that change them, `Init`
 and `Close`. Concrete sinks are tags; the values `Init` reads from the
 environment, from the command-line flags and from the operating system are
 parameters.
 */
module Facade {
  import opened Values

  /** Go's `Config`. */
  datatype Config = Config(
    family: string,
    host: string,
    stdout: bool,
    dir: string,
    fileBufferSize: int64,
    maxLogFile: int64,
    rotateSize: int64,
    v: int32,
    modules: map<string, int32>,
    filter: seq<string>)

  /** A `Config{}` literal: every field at its zero value. */
  const ZeroConfig := Config("", "", false, "", 0, 0, 0, 0, map[], [])

  /** The package variables `_stdout`, `_dir`, `_v`, `_module` and `_filter`,
      as the environment and the command-line flags left them. */
  datatype Flags = Flags(stdout: bool, dir: string, v: int64, modules: map<string, int32>, filter: seq<string>)

  /** `env.AppID` and `env.Hostname`, and what `os.Hostname()` returns (the
      empty string when it fails, since its error is ignored). */
  datatype Env = Env(appID: string, hostname: string, osHostname: string)

  /** The concrete sinks `Init` can construct. */
  datatype Sink =
    | Console
    | File(dir: string, bufferSize: int64, rotateSize: int64, maxLogFile: int64)

  /** The active handler: unset before the first `Init`, the default console
      handler after `Close`, or the composite built by `Init` from the
      sensitive-field list and its sinks. */
  datatype Handler =
    | NoHandler
    | DefaultStdout
    | Handlers(filter: seq<string>, sinks: seq<Sink>)

  datatype State = State(h: Handler, c: Option<Config>)

  /** The state of the process before any `Init`. */
  const Start := State(NoHandler, None)

  /** The file sink a configuration asks for. */
  function FileSink(conf: Config): Sink {
    File(conf.dir, conf.fileBufferSize, conf.rotateSize, conf.maxLogFile)
  }

  /** The sinks `Init` builds, in order: the console when no configuration was
      given or `Stdout` is set, then the file sink when `Dir` is non-empty. */
  function Sinks(isNil: bool, conf: Config): (hs: seq<Sink>)
    ensures Console in hs <==> isNil || conf.stdout
    ensures FileSink(conf) in hs <==> conf.dir != ""
    ensures forall k :: 0 <= k < |hs| ==> hs[k] == Console || hs[k] == FileSink(conf)
    ensures |hs| <= 2 && (|hs| == 2 ==> hs[0] == Console && hs[1] == FileSink(conf))
  {
    var console := if isNil || conf.stdout then [Console] else [];
    var file := if conf.dir != "" then [FileSink(conf)] else [];
    console + file
  }

  /** The configuration `Init(nil)` synthesises from the flags: the five
      flag-backed fields, with `_v` narrowed to 32 bits, and every other field
      at its zero value. */
  function FromFlags(flags: Flags): (c: Config)
    ensures c.stdout == flags.stdout && c.dir == flags.dir
    ensures c.modules == flags.modules && c.filter == flags.filter
    ensures (c.v - flags.v) % 0x1_0000_0000 == 0
    ensures -0x8000_0000 <= flags.v < 0x8000_0000 ==> c.v == flags.v
    ensures c.(stdout := false, dir := "", v := 0, modules := map[], filter := []) == ZeroConfig
  {
    ZeroConfig.(stdout := flags.stdout, dir := flags.dir, v := ToInt32(flags.v),
                modules := flags.modules, filter := flags.filter)
  }

  /** `Init(conf)`, with `None` for a nil pointer. The previous handler is
      dropped without being closed. */
  function Init(st: State, conf: Option<Config>, flags: Flags, env: Env): (st': State)
    ensures st'.c.Some? && st'.h.Handlers?
    ensures var cfg := st'.c.value;
      && (env.appID != "" ==> cfg.family == env.appID)
      && (env.appID == "" ==> cfg.family == (if conf.Some? then conf.value.family else ""))
      && cfg.host == (if env.hostname != "" then env.hostname else env.osHostname)
      && (conf.Some? ==> cfg == conf.value.(family := cfg.family, host := cfg.host))
      && (conf.None? ==> cfg == FromFlags(flags).(family := cfg.family, host := cfg.host))
      && st'.h.filter == cfg.filter
      && st'.h.sinks == Sinks(conf.None?, cfg)
  {
    var isNil := conf.None?;
    var base := if isNil then FromFlags(flags) else conf.value;
    var withFamily := if |env.appID| != 0 then base.(family := env.appID) else base;
    var withHost := withFamily.(host := env.hostname);
    var cfg := if |withHost.host| == 0 then withHost.(host := env.osHostname) else withHost;
    State(Handlers(cfg.filter, Sinks(isNil, cfg)), Some(cfg))
  }

  datatype CloseResult = CloseResult(err: Option<string>, st: State)

  /** `Close()`: closes the active handler, whose `Close` reports `handlerErr`,
      and installs the default console handler. Calling a method on the unset
      handler panics in Go, so an `Init` must have come first. */
  function Close(st: State, handlerErr: Option<string>): (r: CloseResult)
    requires st.h != NoHandler
    ensures r.err == handlerErr
    ensures r.st.h == DefaultStdout && r.st.c == st.c
  {
    CloseResult(handlerErr, State(DefaultStdout, st.c))
  }

  /** One call of `Init` or `Close`, with the values it reads. */
  datatype Op =
    | DoInit(conf: Option<Config>, flags: Flags, env: Env)
    | DoClose(handlerErr: Option<string>)

  /** The state after a sequence of calls, or `None` if one of them is a
      `Close` on the unset handler (a panic). */
  function Run(st: State, ops: seq<Op>): Option<State>
    decreases |ops|
  {
    if |ops| == 0 then Some(st)
    else match ops[0]
      case DoInit(conf, flags, env) => Run(Init(st, conf, flags, env), ops[1..])
      case DoClose(e) => if st.h == NoHandler then None else Run(Close(st, e).st, ops[1..])
  }

  /** Once a handler is installed, no later `Init` or `Close` removes it:
      every `Close` is safe and a handler is always active. */
  lemma {:induction false} HandlerStaysInstalled(st: State, ops: seq<Op>)
    requires st.h != NoHandler
    ensures Run(st, ops).Some? && Run(st, ops).value.h != NoHandler
    decreases |ops|
  {
    if |ops| > 0 {
      match ops[0]
      case DoInit(conf, flags, env) => HandlerStaysInstalled(Init(st, conf, flags, env), ops[1..]);
      case DoClose(e) => HandlerStaysInstalled(Close(st, e).st, ops[1..]);
    }
  }

  /** Starting from a fresh process, any sequence that begins with `Init`
      never panics, and the last call decides the active handler. */
  lemma {:induction false} InitFirstIsSafe(ops: seq<Op>)
    requires |ops| > 0 && ops[0].DoInit?
    ensures Run(Start, ops).Some?
    ensures ops[|ops| - 1].DoClose? ==> Run(Start, ops).value.h == DefaultStdout
    ensures ops[|ops| - 1].DoInit? ==> Run(Start, ops).value.h.Handlers?
  {
    var st := Init(Start, ops[0].conf, ops[0].flags, ops[0].env);
    HandlerStaysInstalled(st, ops[1..]);
    RunLast(st, ops[1..]);
  }

  /** The last call of a safe run decides the kind of the active handler. */
  lemma {:induction false} RunLast(st: State, ops: seq<Op>)
    requires st.h != NoHandler
    ensures Run(st, ops).Some?
    ensures |ops| > 0 && ops[|ops| - 1].DoClose? ==> Run(st, ops).value.h == DefaultStdout
    ensures |ops| > 0 && ops[|ops| - 1].DoInit? ==> Run(st, ops).value.h.Handlers?
    decreases |ops|
  {
    HandlerStaysInstalled(st, ops);
    if |ops| > 0 {
      var next := match ops[0]
        case DoInit(conf, flags, env) => Init(st, conf, flags, env)
        case DoClose(e) => Close(st, e).st;
      HandlerStaysInstalled(next, ops[1..]);
      RunLast(next, ops[1..]);
      if |ops| > 1 {
        assert ops[1..][|ops[1..]| - 1] == ops[|ops| - 1];
      }
    }
  }

  /** A `Close` before any `Init` is a call on a nil handler. */
  lemma CloseBeforeInitPanics(e: Option<string>, rest: seq<Op>)
    ensures Run(Start, [DoClose(e)] + rest) == None
  {
  }

  /** `Init(nil)` writes to the console (and to a file only when a directory
      was configured). */
  lemma NilConfigUsesConsole(st: State, flags: Flags, env: Env)
    ensures Init(st, None, flags, env).h.sinks[0] == Console
    ensures flags.dir == "" ==> Init(st, None, flags, env).h.sinks == [Console]
  {
  }

  /** `Init(&Config{})` builds no sink at all. */
  lemma ZeroConfigIsSilent(st: State, flags: Flags, env: Env)
    ensures Init(st, Some(ZeroConfig), flags, env).h == Handlers([], [])
  {
  }

  /** A caller-supplied `Host` never survives `Init`. */
  lemma HostAlwaysReplaced(st: State, conf: Config, flags: Flags, env: Env)
    requires conf.host != "" && conf.host != env.hostname && conf.host != env.osHostname
    ensures Init(st, Some(conf), flags, env).c.value.host != conf.host
  {
  }

  /** `_v` is narrowed to 32 bits with wrap-around. */
  lemma VerbosityWrapsAround(st: State, flags: Flags, env: Env)
    requires flags.v == 0x8000_0000
    ensures Init(st, None, flags, env).c.value.v == -0x8000_0000
  {
  }

  /** `Init` ignores the state it replaces. */
  lemma InitForgetsPrevious(st1: State, st2: State, conf: Option<Config>, flags: Flags, env: Env)
    ensures Init(st1, conf, flags, env) == Init(st2, conf, flags, env)
  {
  }

  /** Closing twice leaves the same state as closing once, and `Close` keeps
      the last applied configuration. */
  lemma CloseIdempotent(st: State, e1: Option<string>, e2: Option<string>)
    requires st.h != NoHandler
    ensures Close(Close(st, e1).st, e2).st == Close(st, e1).st
  {
  }
}
