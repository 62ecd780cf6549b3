# pretty_flexible_env_logger, modelled in Dafny

The crate sets up a process-wide logger once. The caller gives one string,
which is either the name of an environment variable holding filter
directives or the directives themselves. The crate makes a fresh formatting
builder (plain, or timed with a timestamp per record), parses the directive
into it when there is one, and commits the builder as the global logger.
The global logger can be set only once; later attempts fail with
`SetLoggerError`. The `init*` entry points unwrap that error and panic; the
`try_init*` ones return it.

The model has these modules:

- `Environment`: the process environment as a map from names to values, and
  `std::env::var` over that map.
- `Backend`: the collaborators the crate drives. This is the builder of
  `pretty_env_logger` (which variant it is, and which directive strings were
  parsed into it) and the set-once slot of the `log` crate (`GlobalLogger`,
  whose `TryInit` checks and sets the slot in one step).
- `Resolution`: how a source string becomes a directive (`Resolve`). It is
  written once and used by both `try_init_with` and `try_init_timed_with`.
- `Routing`: the ten entry points as one table (`Requested`, `Effect`), with
  lemmas for what the table promises.
- `EntryPoints`: one method per public function. Each calls the others
  exactly as the code does, and each is proved to meet `Routing.Effect`.
- `Traces`: runs of any number of attempts, each with its own entry point and
  environment. The first attempt wins and every later one fails.

The model follows the code where the names say otherwise. `init_timed_with`
calls the untimed `try_init_with` (src/lib.rs:143). So `init_timed_with`, and
`init_timed` through it, install the plain builder.
`Routing.InitTimedWithIsInitWith` states this.

## Model

| member | source | states |
|---|---|---|
| `Resolution.Resolve` | src/lib.rs:161-164 | The directive is always present. It is the variable's text when the variable holds valid Unicode, even the empty string. Otherwise (unset, or not valid Unicode) it is the source string unchanged. The same resolution appears at src/lib.rs:183-186. |
| `Resolution.ResolveSelfNamed` | src/lib.rs:161-164 | Resolution probes for the variable. So a variable that holds its own name resolves just like an unset or non-Unicode one: to the name itself. |
| `Resolution.ResolveReadsOneVariable` | src/lib.rs:161 | Only the variable named by the source affects resolution. |
| `Backend.Builder.Formatted` | src/lib.rs:204 | The builder of `try_init_custom_string` is plain and has no directive parsed yet. |
| `Backend.Builder.FormattedTimed` | src/lib.rs:227 | The builder of `try_init_timed_custom_string` is timed and has no directive parsed yet. |
| `Backend.Builder.ParseFilters` | src/lib.rs:207 | Parsing a directive string adds it to the builder's directives. The variant is unchanged. |
| `Backend.Commit` | src/lib.rs:56-58 | After a commit the slot is set. The commit succeeds exactly when the slot was empty, and then installs the given configuration. An already-set slot is never replaced. |
| `Backend.GlobalLogger.TryInit` | src/lib.rs:210 | On an empty slot, it installs the builder's configuration and returns `Ok`. On a set slot, it returns `SetLoggerError` and the slot stays as it was. |
| `Routing.Configured` | src/lib.rs:203-211 | The configured builder has the chosen variant. It has no directive when none is given, and exactly the given one otherwise. |
| `Routing.Unwrap` | src/lib.rs:125 | `unwrap` returns normally exactly on `Ok`. On an error it panics with that error. |
| `Routing.EffectSetOnce` | src/lib.rs:90-92 | On an empty slot, every entry point succeeds and installs exactly the configuration it requests. On a set slot, every entry point fails and leaves the installed configuration unchanged. The `try_*` calls return the error; the others panic. |
| `Routing.DefaultSourceRouting` | src/lib.rs:65-108 | `init`, `init_timed`, `try_init` and `try_init_timed` have exactly the effect of their `*_with` counterparts called with `"RUST_LOG"`. |
| `Routing.WithRoutesThroughResolve` | src/lib.rs:160-188 | `try_init_with(s)` has the effect of `try_init_custom_string(Resolve(s))`. `try_init_timed_with(s)` has the effect of `try_init_timed_custom_string(Resolve(s))`. |
| `Routing.InitTimedWithIsInitWith` | src/lib.rs:142-144 | `init_timed_with(x)` has exactly the effect of `init_with(x)`. On an empty slot, `init_timed()` installs the plain builder with the resolved `RUST_LOG` directive. |
| `Routing.TimedVariantCalls` | src/lib.rs:165-187 | On an empty slot, a call installs the timed variant exactly when it is `try_init_timed`, `try_init_timed_with` or `try_init_timed_custom_string`. |
| `Routing.CustomStringDirectives` | src/lib.rs:226-234 | With no filters, both literal-string entry points install a builder with no directive. With `Some(s)` they install one with exactly `s`. The plain and timed variants are as named. |
| `Routing.PanicWrappersUnwrap` | src/lib.rs:121-143 | `init_with` and `init_timed_with` leave the same slot as `try_init_with`. They return normally exactly when it returns `Ok`, and panic exactly when it returns an error. |
| `EntryPoints.TryInitCustomString` | src/lib.rs:203-211 | It commits a fresh plain builder with `filters` parsed in when present. The slot and the result are those of `Commit`: success and installation on an empty slot, an error and no change on a set one. |
| `EntryPoints.TryInitTimedCustomString` | src/lib.rs:226-234 | The same as `TryInitCustomString`, with a fresh timed builder. |
| `EntryPoints.TryInitWith` | src/lib.rs:160-166 | The new slot and the result are exactly `Routing.Effect` of `try_init_with(source)`. |
| `EntryPoints.TryInitTimedWith` | src/lib.rs:182-188 | The new slot and the result are exactly `Routing.Effect` of `try_init_timed_with(source)`. |
| `EntryPoints.InitWith` | src/lib.rs:124-126 | The new slot and the reply (return or panic) are exactly `Routing.Effect` of `init_with(source)`. |
| `EntryPoints.InitTimedWith` | src/lib.rs:142-144 | The new slot and the reply are exactly `Routing.Effect` of `init_timed_with(source)`, including its use of the untimed builder. |
| `EntryPoints.Init` | src/lib.rs:65-67 | The new slot and the reply are exactly `Routing.Effect` of `init()`. |
| `EntryPoints.InitTimed` | src/lib.rs:80-82 | The new slot and the reply are exactly `Routing.Effect` of `init_timed()`. |
| `EntryPoints.TryInit` | src/lib.rs:93-95 | The new slot and the result are exactly `Routing.Effect` of `try_init()`. |
| `EntryPoints.TryInitTimed` | src/lib.rs:106-108 | The new slot and the result are exactly `Routing.Effect` of `try_init_timed()`. |
| `Traces.Run` | src/lib.rs:56-58 | A run gives one reply per attempt. A run that starts with a logger installed ends with the same logger. |
| `Traces.LaterAttemptsFail` | src/lib.rs:90-92 | Once a logger is installed, no later attempt changes it, whatever the entry point or environment. Each attempt fails with `SetLoggerError`: returned by `try_*` calls, as a panic by the others. |
| `Traces.FirstAttemptWins` | src/lib.rs:56-58 | From an empty slot, the first attempt succeeds and the slot ends holding exactly its requested configuration. Every later attempt fails. |
| `Traces.ExactlyOneSuccess` | src/lib.rs:56-58 | In a non-empty run from an empty slot, exactly one attempt succeeds: the first. |

## Left out

- Rendering of log records (colours, level styles, timestamps, terminal detection). This is done inside `pretty_env_logger`. A builder is modelled only by its variant and its parsed directive strings.
- The directive grammar of `env_logger`. `parse_filters` is modelled as recording the string in order, without interpreting it.
- Setting the maximum log level, which `env_logger`'s `try_init` does after a successful commit. The model only sets the slot.
- Atomicity of `log::set_logger` under threads. The slot is checked and set in one method (`Backend.GlobalLogger.TryInit`). Concurrent attempts appear as sequential runs in `Traces`.
- The operating system's environment. It is a map parameter; a variable name the system cannot hold (with `=` or NUL) is simply absent from the map.
- The panic message of `unwrap` and stack unwinding. A panic is the reply `Panicked` carrying the error; the slot is left as the failed commit left it.
- examples/try_with_init.rs, a demo program: command-line arguments, printing and logging macros.
- Crate attributes and re-exports (src/lib.rs:1-3, src/lib.rs:45-49).
