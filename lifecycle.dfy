/**
 * The order of steps in startAsync and stop and how their exit codes are read.
 * Writing the configuration file and running a process are not modelled: whether
 * the write succeeded and the exit code of the script are given.
 */
module Lifecycle {
  import opened Wrappers
  import opened Decimal
  import opened Platform

  /** A script run: the script and the working directory it runs in. */
  datatype Launch = Launch(command: Path, directory: Path)

  /** The three ways startAsync fails: writing the configuration, finding the script, the script's exit code. */
  datatype StartError = ConfigWriteFailed | BadExecutable(cause: ExecError) | NonZeroExit(code: int32)

  /** What a call did: the script it ran, if any, and whether it threw. */
  datatype Report<+E> = Report(launched: Option<Launch>, outcome: Outcome<E>)

  /**
   * startAsync: write the configuration, then resolve the start script and run
   * it in the installation directory; a nonzero exit code is an error.
   */
  function Start(installDir: Path, env: HostEnv, fs: FileSystem, configWritten: bool, exitCode: int32): (r: Report<StartError>)
    ensures r.launched.Some? <==> configWritten && Locate(installDir, env, fs, START_ACTION).Success?
    ensures r.launched.Some? ==>
      r.launched.value == Launch(ExecutablePath(installDir, env, START_ACTION), installDir)
    ensures r.outcome.Pass? <==> r.launched.Some? && exitCode == 0
    ensures !configWritten ==> r.outcome == Fail(ConfigWriteFailed)
    ensures configWritten && Locate(installDir, env, fs, START_ACTION).Failure? ==>
      r.outcome == Fail(BadExecutable(Locate(installDir, env, fs, START_ACTION).error))
    ensures r.launched.Some? && exitCode != 0 ==> r.outcome == Fail(NonZeroExit(exitCode))
  {
    if !configWritten then Report(None, Fail(ConfigWriteFailed))
    else
      match Locate(installDir, env, fs, START_ACTION)
      case Failure(e) => Report(None, Fail(BadExecutable(e)))
      case Success(exec) =>
        Report(Some(Launch(exec, installDir)), if exitCode == 0 then Pass else Fail(NonZeroExit(exitCode)))
  }

  /** stop: resolve the stop script and run it in the installation directory; its exit code is ignored. */
  function Stop(installDir: Path, env: HostEnv, fs: FileSystem, exitCode: int32): (r: Report<ExecError>)
    ensures r.launched.Some? <==> r.outcome.Pass?
    ensures r.outcome.Pass? <==> Locate(installDir, env, fs, STOP_ACTION).Success?
    ensures r.launched.Some? ==>
      r.launched.value == Launch(ExecutablePath(installDir, env, STOP_ACTION), installDir)
  {
    match Locate(installDir, env, fs, STOP_ACTION)
    case Failure(e) => Report(None, Fail(e))
    case Success(exec) => Report(Some(Launch(exec, installDir)), Pass)
  }

  /** Whatever the stop script exits with, stop behaves the same. */
  lemma StopIgnoresExitCode(installDir: Path, env: HostEnv, fs: FileSystem, e1: int32, e2: int32)
    ensures Stop(installDir, env, fs, e1) == Stop(installDir, env, fs, e2)
  {
  }

  /** A failed configuration write stops startAsync before anything is resolved or launched. */
  lemma NoLaunchWithoutConfig(installDir: Path, env: HostEnv, fs: FileSystem, exitCode: int32)
    ensures Start(installDir, env, fs, false, exitCode) == Report(None, Fail(ConfigWriteFailed))
  {
  }

  /** startAsync succeeds only if the start script was found, executable and exited with 0. */
  lemma StartSuccess(installDir: Path, env: HostEnv, fs: FileSystem, configWritten: bool, exitCode: int32)
    requires Start(installDir, env, fs, configWritten, exitCode).outcome.Pass?
    ensures configWritten && exitCode == 0
    ensures ExecutablePath(installDir, env, START_ACTION) in fs.existing
    ensures ExecutablePath(installDir, env, START_ACTION) in fs.executable
  {
  }
}
