/**
 * `std::env::var`: the process environment is a parameter, a map from
 * variable names to their values, some of which may not be valid Unicode.
 */
module Env {
  import opened Wrappers

  datatype EnvValue = Unicode(value: string) | NonUnicode

  type Environment = map<string, EnvValue>

  /** `std::env::VarError`. */
  datatype VarError = NotPresent | NotUnicode

  /** `std::env::var(key)`. */
  function Var(env: Environment, key: string): (r: Result<string, VarError>)
    ensures r.Success? <==> key in env && env[key].Unicode?
    ensures r.Success? ==> r.value == env[key].value
    ensures key !in env ==> r == Failure(NotPresent)
  {
    if key !in env then Failure(NotPresent)
    else match env[key]
      case Unicode(v) => Success(v)
      case NonUnicode => Failure(NotUnicode)
  }
}
