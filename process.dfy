/** The process-spawning primitive both `run_command` helpers sit on. The
    process itself is not modelled: a caller supplies `spawn`, which maps
    everything handed to `subprocess.Popen` to the captured outcome. */
module Process {

  /** An environment: variable name to value. */
  type Env = map<string, string>

  /** What is handed to `subprocess.Popen`: the command, whether a shell runs
      it, the environment, the interpreter (`executable`) and whether standard
      output is captured through a pipe (otherwise it goes to the null device). */
  datatype Invocation = Invocation(
    command: string,
    shell: bool,
    env: Env,
    executable: string,
    captureStdout: bool)

  /** What `communicate()` and `returncode` give back once the process exits. */
  datatype Outcome = Outcome(output: string, error: string, returnCode: int)
}
