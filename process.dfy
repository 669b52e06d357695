/**
 * The boundary to the operating system. Running the `terraform` binary is not
 * modelled: a handler hands an Invocation to a runner function, which gives
 * back what `subprocess.run(..., capture_output=True, text=True, check=True)`
 * ended with.
 */
module Process {
  import opened Wrappers

  /** The argument vector and the working directory (`cwd=`) of one process run. */
  datatype Invocation = Invocation(argv: seq<string>, cwd: Option<string>)

  /**
   * A zero exit status gives the completed process with its captured streams;
   * a non-zero one makes `check=True` raise CalledProcessError, which carries
   * the streams captured up to the exit.
   */
  datatype Outcome =
    | Completed(stdout: string, stderr: string)
    | CalledProcessError(stdout: string, stderr: string)

  /**
   * The process runner for invocations that do spawn, deterministic in the
   * model. A failure to spawn raises in the source and is not an Outcome.
   */
  type Runner = Invocation -> Outcome
}
