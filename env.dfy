/** The process environment, as the configuration loaders read it. */
module Env {
  /** Environment variables by name; a name that is absent is unset. */
  type Environment = map<string, string>

  /** `os.Getenv`: the value of `key`, or "" when it is unset. */
  function Getenv(env: Environment, key: string): (v: string)
    ensures key !in env ==> v == ""
    ensures key in env ==> v == env[key]
  {
    if key in env then env[key] else ""
  }
}
