/**
 * The process environment as the logger reads it. The operating system's
 * variables are an abstract map from names to what the variable holds; the
 * lookup is Rust's `std::env::var`, which reports a missing variable and a
 * value that is not valid Unicode as two different errors.
 */
module Environment {
  import opened Wrappers

  /** What one environment variable holds. */
  datatype EnvValue = Unicode(text: string) | NonUnicode

  /** A snapshot of the process environment. A name the operating system
      could not hold (one with `=` or NUL in it) is simply absent. */
  type Env = map<string, EnvValue>

  /** The two ways `std::env::var` fails. */
  datatype VarError = NotPresent | NotUnicode

  /** `std::env::var(key)`: the text of the variable when it is set and valid Unicode. */
  function Var(env: Env, key: string): (r: Result<string, VarError>)
    ensures r.Ok? <==> key in env && env[key].Unicode?
    ensures r.Ok? ==> r.value == env[key].text
    ensures r == Err(NotPresent) <==> key !in env
  {
    if key !in env then Err(NotPresent)
    else match env[key]
      case Unicode(text) => Ok(text)
      case NonUnicode => Err(NotUnicode)
  }
}
