/**
 * The public functions of the crate, one method each, calling one another
 * as the code does. Each is proved against `Routing.Effect`; the global
 * logger is the object `g` and the process environment is `env`.
 */
module EntryPoints {
  import opened Wrappers
  import opened Environment
  import opened Backend
  import Resolution
  import Routing

  /** `try_init_custom_string`: a fresh plain builder, `filters` parsed into
      it when present, then committed. */
  method TryInitCustomString(g: GlobalLogger, filters: Option<string>) returns (r: Result<(), SetLoggerError>)
    modifies g
    ensures (g.installed, r) == Commit(old(g.installed), Routing.Configured(Plain, filters))
    ensures old(g.installed).None? ==> r == Ok(()) && g.installed == Some(Routing.Configured(Plain, filters))
    ensures old(g.installed).Some? ==> r == Err(SetLoggerError) && g.installed == old(g.installed)
  {
    var builder := new Builder.Formatted();
    if filters.Some? {
      builder.ParseFilters(filters.value);
    }
    assert builder.Build() == Routing.Configured(Plain, filters);
    r := g.TryInit(builder);
  }

  /** `try_init_timed_custom_string`: as `TryInitCustomString` with the timed builder. */
  method TryInitTimedCustomString(g: GlobalLogger, filters: Option<string>) returns (r: Result<(), SetLoggerError>)
    modifies g
    ensures (g.installed, r) == Commit(old(g.installed), Routing.Configured(Timed, filters))
    ensures old(g.installed).None? ==> r == Ok(()) && g.installed == Some(Routing.Configured(Timed, filters))
    ensures old(g.installed).Some? ==> r == Err(SetLoggerError) && g.installed == old(g.installed)
  {
    var builder := new Builder.FormattedTimed();
    if filters.Some? {
      builder.ParseFilters(filters.value);
    }
    assert builder.Build() == Routing.Configured(Timed, filters);
    r := g.TryInit(builder);
  }

  /** `try_init_with`: resolves the source, then commits a plain builder. */
  method TryInitWith(g: GlobalLogger, env: Env, source: string) returns (r: Result<(), SetLoggerError>)
    modifies g
    ensures Routing.Effect(old(g.installed), env, Routing.TryInitWith(source)) == Routing.Outcome(g.installed, Routing.Returned(r))
  {
    var value := Resolution.Resolve(env, source);
    r := TryInitCustomString(g, value);
  }

  /** `try_init_timed_with`: resolves the source, then commits a timed builder. */
  method TryInitTimedWith(g: GlobalLogger, env: Env, source: string) returns (r: Result<(), SetLoggerError>)
    modifies g
    ensures Routing.Effect(old(g.installed), env, Routing.TryInitTimedWith(source)) == Routing.Outcome(g.installed, Routing.Returned(r))
  {
    var value := Resolution.Resolve(env, source);
    r := TryInitTimedCustomString(g, value);
  }

  /** `init_with`: `try_init_with`, unwrapped. */
  method InitWith(g: GlobalLogger, env: Env, source: string) returns (reply: Routing.Reply)
    modifies g
    ensures Routing.Effect(old(g.installed), env, Routing.InitWith(source)) == Routing.Outcome(g.installed, reply)
  {
    var r := TryInitWith(g, env, source);
    reply := Routing.Unwrap(r);
  }

  /** `init_timed_with`: as written it unwraps the untimed `try_init_with`. */
  method InitTimedWith(g: GlobalLogger, env: Env, source: string) returns (reply: Routing.Reply)
    modifies g
    ensures Routing.Effect(old(g.installed), env, Routing.InitTimedWith(source)) == Routing.Outcome(g.installed, reply)
  {
    var r := TryInitWith(g, env, source);
    reply := Routing.Unwrap(r);
  }

  /** `init`: `init_with("RUST_LOG")`. */
  method Init(g: GlobalLogger, env: Env) returns (reply: Routing.Reply)
    modifies g
    ensures Routing.Effect(old(g.installed), env, Routing.Init) == Routing.Outcome(g.installed, reply)
  {
    reply := InitWith(g, env, Resolution.DEFAULT_SOURCE);
  }

  /** `init_timed`: `init_timed_with("RUST_LOG")`. */
  method InitTimed(g: GlobalLogger, env: Env) returns (reply: Routing.Reply)
    modifies g
    ensures Routing.Effect(old(g.installed), env, Routing.InitTimed) == Routing.Outcome(g.installed, reply)
  {
    reply := InitTimedWith(g, env, Resolution.DEFAULT_SOURCE);
  }

  /** `try_init`: `try_init_with("RUST_LOG")`. */
  method TryInit(g: GlobalLogger, env: Env) returns (r: Result<(), SetLoggerError>)
    modifies g
    ensures Routing.Effect(old(g.installed), env, Routing.TryInit) == Routing.Outcome(g.installed, Routing.Returned(r))
  {
    r := TryInitWith(g, env, Resolution.DEFAULT_SOURCE);
  }

  /** `try_init_timed`: `try_init_timed_with("RUST_LOG")`. */
  method TryInitTimed(g: GlobalLogger, env: Env) returns (r: Result<(), SetLoggerError>)
    modifies g
    ensures Routing.Effect(old(g.installed), env, Routing.TryInitTimed) == Routing.Outcome(g.installed, Routing.Returned(r))
  {
    r := TryInitTimedWith(g, env, Resolution.DEFAULT_SOURCE);
  }
}
