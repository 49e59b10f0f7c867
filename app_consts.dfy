/**
 * pkg/app: the deployment environments and the log levels, string types
 * with a fixed set of valid values.
 */
module AppConsts {
  datatype Environment = Environment(name: string)

  const Production := Environment("production")
  const Development := Environment("development")
  const Local := Environment("local")

  /** `Environment.String`: the underlying string, from which the environment comes back. */
  function EnvironmentString(e: Environment): (r: string)
    ensures Environment(r) == e
  {
    e.name
  }

  /** `Environment.IsValid`: one of the three environments, spelled exactly. */
  predicate EnvironmentIsValid(e: Environment) {
    e == Production || e == Development || e == Local
  }

  datatype LogLevel = LogLevel(name: string)

  const Debug := LogLevel("DEBUG")
  const Info := LogLevel("INFO")
  const Warn := LogLevel("WARN")
  const Error := LogLevel("ERROR")

  /** `LogLevel.String`: the underlying string, from which the level comes back. */
  function LogLevelString(l: LogLevel): (r: string)
    ensures LogLevel(r) == l
  {
    l.name
  }

  /** `LogLevel.IsValid`: one of the four levels, spelled exactly. */
  predicate LogLevelIsValid(l: LogLevel) {
    l == Debug || l == Info || l == Warn || l == Error
  }

  /**
   * Validity is a matter of the spelling: exactly the three environment
   * names and the four upper-case level names are valid, so a level written
   * in lower case is not.
   */
  lemma ValidNames(e: Environment, l: LogLevel)
    ensures EnvironmentIsValid(e) <==> EnvironmentString(e) in {"production", "development", "local"}
    ensures LogLevelIsValid(l) <==> LogLevelString(l) in {"DEBUG", "INFO", "WARN", "ERROR"}
    ensures !LogLevelIsValid(LogLevel("debug")) && !EnvironmentIsValid(Environment("Production"))
  {
    assert "debug" != "DEBUG" by { assert "debug"[0] != "DEBUG"[0]; }
    assert "Production" != "production" by { assert "Production"[0] != "production"[0]; }
  }
}
