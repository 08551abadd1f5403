/** Values shared by every component: an optional value and the process environment. */
module Common {

  datatype Option<T> = None | Some(value: T)

  /** The process environment, as `os.environ` presents it: name to value. */
  type Env = map<string, string>

  /** `os.getenv(key, default)`: the value when the variable is present (even if empty). */
  function GetEnv(env: Env, key: string, default: string): string
  {
    if key in env then env[key] else default
  }

  /** Truthiness of `os.getenv(key)`: present and not the empty string. */
  predicate IsSet(env: Env, key: string)
  {
    key in env && env[key] != ""
  }
}
