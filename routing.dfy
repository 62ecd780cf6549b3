/**
 * The public entry points as one table: for each call, the configuration it
 * tries to install and how it reports a logger that is already installed.
 * `EntryPoints` proves that the code's chain of calls meets this table;
 * the lemmas here state what the table promises.
 */
module Routing {
  import opened Wrappers
  import opened Environment
  import opened Backend
  import opened Resolution

  /** One call of a public entry point with its argument. */
  datatype Call =
    | Init
    | InitTimed
    | TryInit
    | TryInitTimed
    | InitWith(source: string)
    | InitTimedWith(source: string)
    | TryInitWith(source: string)
    | TryInitTimedWith(source: string)
    | TryInitCustomString(filters: Option<string>)
    | TryInitTimedCustomString(filters: Option<string>)

  /** How a call ends: it returns its result, or it panics because `unwrap`
      met an error. The entry points without a result return `Ok(())`. */
  datatype Reply = Returned(result: Result<(), SetLoggerError>) | Panicked(payload: SetLoggerError)
  {
    predicate Succeeded() { this == Returned(Ok(())) }
  }

  /** The slot after a call, and how the call ended. */
  datatype Outcome = Outcome(installed: Option<Config>, reply: Reply)

  /** The builder configuration of `try_init_custom_string` (variant
      `Plain`) and `try_init_timed_custom_string` (variant `Timed`): no
      directive when `filters` is absent, exactly that one when present. */
  function Configured(variant: Variant, filters: Option<string>): (c: Config)
    ensures c.variant == variant
    ensures filters.None? <==> c.directives == []
    ensures filters.Some? ==> c.directives == [filters.value]
  {
    Config(variant, if filters.Some? then [filters.value] else [])
  }

  /** `Result::unwrap` on a result without a value: an error becomes a panic. */
  function Unwrap(r: Result<(), SetLoggerError>): (reply: Reply)
    ensures reply.Succeeded() <==> r.Ok?
    ensures r.Err? ==> reply == Panicked(r.error)
  {
    match r
    case Ok(_) => Returned(Ok(()))
    case Err(e) => Panicked(e)
  }

  /** The entry points that unwrap instead of returning a result. */
  predicate Panics(call: Call) {
    call.Init? || call.InitTimed? || call.InitWith? || call.InitTimedWith?
  }

  /** The builder variant a call ends up making, as the code routes it
      (`init_timed_with`, and so `init_timed`, reach the plain builder). */
  function VariantOf(call: Call): Variant {
    if call.TryInitTimed? || call.TryInitTimedWith? || call.TryInitTimedCustomString? then Timed else Plain
  }

  /** The directive a call applies to its builder. */
  function FiltersOf(env: Env, call: Call): Option<string> {
    match call
    case Init | InitTimed | TryInit | TryInitTimed => Resolve(env, DEFAULT_SOURCE)
    case TryInitCustomString(filters) => filters
    case TryInitTimedCustomString(filters) => filters
    case _ => Resolve(env, call.source)
  }

  /** The configuration a call tries to install. */
  function Requested(env: Env, call: Call): Config {
    Configured(VariantOf(call), FiltersOf(env, call))
  }

  /** The reply of a call that finds a logger already installed. */
  function FailureReply(call: Call): Reply {
    if Panics(call) then Panicked(SetLoggerError) else Returned(Err(SetLoggerError))
  }

  /** The whole effect of one call on the slot, in an environment `env`. */
  function Effect(slot: Option<Config>, env: Env, call: Call): Outcome {
    var (installed, result) := Commit(slot, Requested(env, call));
    Outcome(installed, if Panics(call) then Unwrap(result) else Returned(result))
  }

  /** Set once: on an empty slot every call succeeds and installs exactly
      what it requested; on a set slot every call fails, by error or by
      panic, and the installed configuration stays as it was. */
  lemma EffectSetOnce(slot: Option<Config>, env: Env, call: Call)
    ensures slot.None? ==> Effect(slot, env, call) == Outcome(Some(Requested(env, call)), Returned(Ok(())))
    ensures slot.Some? ==> Effect(slot, env, call) == Outcome(slot, FailureReply(call))
  {
  }

  /** The parameterless entry points are their `*_with` counterparts on `RUST_LOG`. */
  lemma DefaultSourceRouting(slot: Option<Config>, env: Env)
    ensures Effect(slot, env, Init) == Effect(slot, env, InitWith(DEFAULT_SOURCE))
    ensures Effect(slot, env, InitTimed) == Effect(slot, env, InitTimedWith(DEFAULT_SOURCE))
    ensures Effect(slot, env, TryInit) == Effect(slot, env, TryInitWith(DEFAULT_SOURCE))
    ensures Effect(slot, env, TryInitTimed) == Effect(slot, env, TryInitTimedWith(DEFAULT_SOURCE))
  {
  }

  /** `try_init_with` and `try_init_timed_with` are the literal-string entry
      points applied to the resolved source. */
  lemma WithRoutesThroughResolve(slot: Option<Config>, env: Env, source: string)
    ensures Effect(slot, env, TryInitWith(source)) == Effect(slot, env, TryInitCustomString(Resolve(env, source)))
    ensures Effect(slot, env, TryInitTimedWith(source)) == Effect(slot, env, TryInitTimedCustomString(Resolve(env, source)))
  {
  }

  /** `init_timed_with(x)` has exactly the effect of `init_with(x)`: it
      installs the plain builder, not the timed one. */
  lemma InitTimedWithIsInitWith(slot: Option<Config>, env: Env, source: string)
    ensures Effect(slot, env, InitTimedWith(source)) == Effect(slot, env, InitWith(source))
    ensures slot.None? ==> Effect(slot, env, InitTimed).installed == Some(Config(Plain, [Resolve(env, DEFAULT_SOURCE).value]))
  {
  }

  /** Which calls install the timed variant: exactly the three `try_*timed*` ones. */
  lemma TimedVariantCalls(slot: Option<Config>, env: Env, call: Call)
    requires slot.None?
    ensures Effect(slot, env, call).installed.value.variant == Timed
        <==> call.TryInitTimed? || call.TryInitTimedWith? || call.TryInitTimedCustomString?
  {
  }

  /** The literal-string entry points parse no directive when given none,
      and exactly the given one otherwise. */
  lemma CustomStringDirectives(slot: Option<Config>, env: Env, filters: Option<string>)
    requires slot.None?
    ensures Effect(slot, env, TryInitCustomString(filters)).installed == Some(Config(Plain, if filters.Some? then [filters.value] else []))
    ensures Effect(slot, env, TryInitTimedCustomString(filters)).installed == Some(Config(Timed, if filters.Some? then [filters.value] else []))
  {
  }

  /** `init_with` and `init_timed_with` return exactly when `try_init_with`
      returns `Ok`, panic otherwise, and leave the same slot behind. */
  lemma PanicWrappersUnwrap(slot: Option<Config>, env: Env, source: string)
    ensures Effect(slot, env, InitWith(source)).installed == Effect(slot, env, TryInitWith(source)).installed
    ensures Effect(slot, env, InitWith(source)).reply.Succeeded() <==> Effect(slot, env, TryInitWith(source)).reply == Returned(Ok(()))
    ensures Effect(slot, env, InitWith(source)).reply.Panicked? <==> Effect(slot, env, TryInitWith(source)).reply.result.Err?
    ensures Effect(slot, env, InitTimedWith(source)).installed == Effect(slot, env, TryInitWith(source)).installed
    ensures Effect(slot, env, InitTimedWith(source)).reply.Panicked? <==> Effect(slot, env, TryInitWith(source)).reply.result.Err?
  {
  }
}
