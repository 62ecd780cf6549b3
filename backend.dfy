/**
 * The collaborators the crate configures and commits: the formatting
 * builder of `pretty_env_logger` (over `env_logger`'s builder) and the
 * process-wide logger slot of the `log` crate. Only what the crate relies
 * on is modelled: which variant of builder was made, which directive
 * strings were parsed into it, and the set-once slot.
 */
module Backend {
  import opened Wrappers

  /** The two formatting builders: plain, or with a timestamp on each record. */
  datatype Variant = Plain | Timed

  /** What a committed builder installs: its variant and the directive
      strings parsed into it, in the order they were parsed. The directive
      grammar belongs to `env_logger`; here the strings are kept as given. */
  datatype Config = Config(variant: Variant, directives: seq<string>)

  /** `log::SetLoggerError`: a logger had already been set. */
  datatype SetLoggerError = SetLoggerError

  /** A formatting builder, created fresh for each initialization attempt. */
  class Builder {
    var variant: Variant
    var directives: seq<string>

    /** `pretty_env_logger::formatted_builder()`: no directive parsed yet. */
    constructor Formatted()
      ensures variant == Plain && directives == []
    {
      variant := Plain;
      directives := [];
    }

    /** `pretty_env_logger::formatted_timed_builder()`: no directive parsed yet. */
    constructor FormattedTimed()
      ensures variant == Timed && directives == []
    {
      variant := Timed;
      directives := [];
    }

    /** `Builder::parse_filters`: adds the directives of `filters` to those
        already parsed; the variant is untouched. */
    method ParseFilters(filters: string)
      modifies this
      ensures variant == old(variant)
      ensures directives == old(directives) + [filters]
    {
      directives := directives + [filters];
    }

    /** The configuration this builder would install if committed now. */
    function Build(): Config
      reads this
    {
      Config(variant, directives)
    }
  }

  /** Committing `config` to the slot: it is installed only when the slot is
      empty; otherwise the slot keeps what it holds and the commit fails. */
  function Commit(slot: Option<Config>, config: Config): (r: (Option<Config>, Result<(), SetLoggerError>))
    ensures r.0.Some?
    ensures r.1.Ok? <==> slot.None?
    ensures slot.Some? ==> r.0 == slot
    ensures r.1.Ok? ==> r.0 == Some(config)
  {
    if slot.None? then (Some(config), Ok(())) else (slot, Err(SetLoggerError))
  }

  /** The process-wide logger slot of the `log` crate. */
  class GlobalLogger {
    var installed: Option<Config>

    /** A process starts with no logger installed. */
    constructor ()
      ensures installed == None
    {
      installed := None;
    }

    /** `Builder::try_init`: installs the builder's configuration if no
        logger is installed yet, and fails without any change otherwise. */
    method TryInit(builder: Builder) returns (r: Result<(), SetLoggerError>)
      modifies this
      ensures (installed, r) == Commit(old(installed), builder.Build())
      ensures old(installed).None? ==> r == Ok(()) && installed == Some(builder.Build())
      ensures old(installed).Some? ==> r == Err(SetLoggerError) && installed == old(installed)
    {
      if installed.None? {
        installed := Some(builder.Build());
        r := Ok(());
      } else {
        r := Err(SetLoggerError);
      }
    }
  }
}
