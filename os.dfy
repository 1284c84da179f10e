/** The process environment and the outcome of an external command, the two
    things the deployer and the advisor learn from the operating system. */
module Os {

  /** Environment variables that are set, with their values. */
  type Environment = map<string, string>

  /** os.Getenv: the value of k, or "" when k is unset. */
  function Getenv(env: Environment, k: string): (v: string)
    ensures k !in env ==> v == ""
    ensures k in env ==> v == env[k]
  {
    if k in env then env[k] else ""
  }

  /** How an external command ended: exit status 0, or an error whose text
      Go's exec package would report. */
  datatype Exit = Success | Failure(reason: string)

  /** One external command run: program, arguments and what it reads on its
      standard input. */
  datatype Invocation = Invocation(program: string, args: seq<string>, stdin: string)
}
