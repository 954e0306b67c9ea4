/**
 * The test fixture object: one installed server distribution, its
 * configuration table and the start script it launched.
 */
module Fixture {
  import opened Wrappers
  import opened Decimal
  import opened Config
  import opened Platform
  import opened Lifecycle

  class SonarQube {
    /** The root of the unpacked distribution; never reassigned. */
    const installDir: Path
    /** The configuration table written to conf/sonar.properties on start. */
    var config: Properties
    /** The start script run, once launching it has succeeded. */
    var process: Option<Launch>

    constructor (installDir: Path, port: int32)
      ensures this.installDir == installDir
      ensures config == Defaults(port) && process == None
      ensures GetPort() == Success(port)
      ensures GetHost() == Some(DEFAULT_HOST)
    {
      this.installDir := installDir;
      config := Defaults(port);
      process := None;
      DefaultsRoundTrip(port);
    }

    /** getConfig().setProperty(key, value): the table is shared and mutable. */
    method SetProperty(key: string, value: string)
      modifies this`config
      ensures config == old(config)[key := value]
      ensures key != PORT_PROPERTY ==> GetPort() == old(GetPort())
      ensures key != HOST_PROPERTY ==> GetHost() == old(GetHost())
    {
      config := config[key := value];
    }

    function GetPort(): Result<int32, NumberFormatError>
      reads this
    {
      PortOf(config)
    }

    function GetHost(): Option<string>
      reads this
    {
      HostOf(config)
    }

    /** getExecutable: the rendered path of the control script for the action, or the failed check. */
    function GetExecutable(env: HostEnv, fs: FileSystem, action: string): (r: Result<string, ExecError>)
      ensures r.Success? <==> Locate(installDir, env, fs, action).Success?
      ensures r.Failure? ==> r.error == Locate(installDir, env, fs, action).error
      ensures r.Success? ==>
        var os := NormaliseOs(env.osName);
        var sep := env.separator;
        r.value == (if installDir.names == [] then "" else PathString(installDir, sep) + [sep]) +
          "bin" + [sep] + (os + "-" + NormaliseArch(env.osArch)) + [sep] + BinaryName(os, action)
    {
      match Locate(installDir, env, fs, action)
      case Failure(e) => Failure(e)
      case Success(exec) =>
        ExecutablePathString(installDir, env, action);
        Success(PathString(exec, env.separator))
    }

    /** startAsync: the process handle is kept whenever the script was launched, even if it then failed. */
    method StartAsync(env: HostEnv, fs: FileSystem, configWritten: bool, exitCode: int32) returns (outcome: Outcome<StartError>)
      modifies this`process
      ensures outcome == Start(installDir, env, fs, configWritten, exitCode).outcome
      ensures process == if Start(installDir, env, fs, configWritten, exitCode).launched.Some?
        then Start(installDir, env, fs, configWritten, exitCode).launched else old(process)
    {
      var report := Start(installDir, env, fs, configWritten, exitCode);
      if report.launched.Some? {
        process := report.launched;
      }
      outcome := report.outcome;
    }

    /** stop: fails only when the stop script cannot be resolved. */
    method Stop(env: HostEnv, fs: FileSystem, exitCode: int32) returns (outcome: Outcome<ExecError>)
      ensures outcome.Pass? <==> Locate(installDir, env, fs, STOP_ACTION).Success?
      ensures outcome.Fail? ==> outcome.error == Locate(installDir, env, fs, STOP_ACTION).error
    {
      outcome := Lifecycle.Stop(installDir, env, fs, exitCode).outcome;
    }
  }
}
