/**
 * Filter-source resolution, shared by `try_init_with` and
 * `try_init_timed_with`: the caller's string is first taken as the name of
 * an environment variable; when that variable cannot be read, the string
 * itself is the directive.
 */
module Resolution {
  import opened Wrappers
  import opened Environment

  /** The variable the parameterless entry points read. */
  const DEFAULT_SOURCE: string := "RUST_LOG"

  /** The directive an initialization applies for `source`. It is always
      present: the variable's text when `source` names a variable holding
      valid Unicode (even the empty string), and `source` itself when the
      variable is unset or does not hold valid Unicode. */
  function Resolve(env: Env, source: string): (filters: Option<string>)
    ensures filters.Some?
    ensures source in env && env[source].Unicode? ==> filters.value == env[source].text
    ensures source !in env || env[source].NonUnicode? ==> filters.value == source
  {
    match Var(env, source)
    case Ok(text) => Some(text)
    case Err(_) => Some(source)
  }

  /** Resolution probes for the variable instead of being told what the
      string is: a variable that holds its own name cannot be told apart from
      an unset one, nor from one whose value is not valid Unicode. */
  lemma ResolveSelfNamed(env: Env, source: string)
    ensures Resolve(env[source := Unicode(source)], source) == Resolve(env - {source}, source)
    ensures Resolve(env[source := NonUnicode], source) == Resolve(env - {source}, source)
    ensures Resolve(env - {source}, source) == Some(source)
  {
  }

  /** Only the variable named `source` matters: environments that agree on it
      resolve `source` alike. */
  lemma ResolveReadsOneVariable(env1: Env, env2: Env, source: string)
    requires source in env1 <==> source in env2
    requires source in env1 ==> env1[source] == env2[source]
    ensures Resolve(env1, source) == Resolve(env2, source)
  {
  }
}
