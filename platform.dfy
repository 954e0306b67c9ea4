/**
 * Resolution of the platform-specific control script (SonarQube.getExecutable):
 * normalise os.name and os.arch, pick the script for the action, build
 * <installDir>/bin/<os>-<arch>/<binary> and insist that it exists and is executable.
 */
module Platform {
  import opened Wrappers
  import opened Text

  const WINDOWS := "windows"
  const AMD64 := "amd64"
  const X86_64 := "x86-64"
  const START_ACTION := "start"
  const STOP_ACTION := "stop"
  const WINDOWS_START_SCRIPT := "StartSonar.bat"
  const WINDOWS_STOP_SCRIPT := "StopNTService.bat"
  /** A name no distribution ships, so that an unknown action fails early. */
  const WINDOWS_UNKNOWN_SCRIPT := "unknown_action.cmd"
  /** The shell script's name; the action is appended to it inside the same file name. */
  const SHELL_SCRIPT_PREFIX := "sonar.sh "

  /** The system properties the resolution reads: os.name, os.arch and the name separator. */
  datatype HostEnv = HostEnv(osName: string, osArch: string, separator: char)

  /** A file-system path as its sequence of names. */
  datatype Path = Path(names: seq<string>)

  /** The answers of File.exists and File.canExecute, as the sets of paths for which they hold. */
  datatype FileSystem = FileSystem(existing: set<Path>, executable: set<Path>)

  /** Both cases throw IllegalArgumentException in the fixture. */
  datatype ExecError = Missing(path: Path) | NotExecutable(path: Path)

  /** Path.resolve with a single name. */
  function Child(p: Path, name: string): Path
  {
    Path(p.names + [name])
  }

  /** The characters that the regular-expression '.' does not match. */
  predicate IsLineTerminator(c: char)
  {
    c == '\n' || c == '\r' || c == '\U{0085}' || c == '\U{2028}' || c == '\U{2029}'
  }

  /** The regular expression ".*" matching all of s. */
  predicate MatchesDotStar(s: string)
  {
    s == [] || (!IsLineTerminator(s[0]) && MatchesDotStar(s[1..]))
  }

  /** String.matches(lit + ".*"): lit literally, then ".*", over the whole string. */
  predicate MatchesLiteralDotStar(s: string, lit: string)
  {
    if lit == [] then MatchesDotStar(s)
    else s != [] && s[0] == lit[0] && MatchesLiteralDotStar(s[1..], lit[1..])
  }

  /** What the pattern "windows.*" describes: the prefix "windows", then no line terminator. */
  ghost predicate WindowsFamily(s: string)
  {
    |s| >= |WINDOWS| && s[..|WINDOWS|] == WINDOWS &&
    forall i :: |WINDOWS| <= i < |s| ==> !IsLineTerminator(s[i])
  }

  lemma {:induction false} DotStarMeansNoTerminator(s: string)
    ensures MatchesDotStar(s) <==> forall i :: 0 <= i < |s| ==> !IsLineTerminator(s[i])
  {
    if s != [] {
      DotStarMeansNoTerminator(s[1..]);
      assert forall i :: 1 <= i < |s| ==> s[i] == s[1..][i - 1];
    }
  }

  lemma {:induction false} LiteralDotStarMeans(s: string, lit: string)
    ensures MatchesLiteralDotStar(s, lit) <==>
      |s| >= |lit| && s[..|lit|] == lit &&
      forall i :: |lit| <= i < |s| ==> !IsLineTerminator(s[i])
  {
    if lit == [] {
      DotStarMeansNoTerminator(s);
    } else if s != [] {
      LiteralDotStarMeans(s[1..], lit[1..]);
      assert forall i :: 1 <= i < |s| ==> s[i] == s[1..][i - 1];
      if |s| >= |lit| {
        assert s[..|lit|] == [s[0]] + s[1..][..|lit| - 1];
        assert lit == [lit[0]] + lit[1..];
      }
    }
  }

  /** The normalised operating-system name: "windows" or the lower-cased name. */
  function NormaliseOs(osName: string): (r: string)
    ensures r == WINDOWS || r == Lower(osName)
    ensures forall i :: 0 <= i < |r| ==> !IsUpper(r[i])
  {
    var lower := Lower(osName);
    if MatchesLiteralDotStar(lower, WINDOWS) then WINDOWS else lower
  }

  /** The normalised architecture: only the exact string "amd64" is renamed. */
  function NormaliseArch(osArch: string): (r: string)
    ensures r != AMD64
    ensures osArch != AMD64 ==> r == osArch
  {
    if osArch == AMD64 then X86_64 else osArch
  }

  /** The control script's file name for the normalised OS and the action. */
  function BinaryName(os: string, action: string): (r: string)
    ensures os == WINDOWS ==> r in {WINDOWS_START_SCRIPT, WINDOWS_STOP_SCRIPT, WINDOWS_UNKNOWN_SCRIPT}
    ensures os != WINDOWS ==>
      |r| == |SHELL_SCRIPT_PREFIX| + |action| &&
      r[..|SHELL_SCRIPT_PREFIX|] == SHELL_SCRIPT_PREFIX && r[|SHELL_SCRIPT_PREFIX|..] == action
  {
    if os == WINDOWS then
      if action == START_ACTION then WINDOWS_START_SCRIPT
      else if action == STOP_ACTION then WINDOWS_STOP_SCRIPT
      else WINDOWS_UNKNOWN_SCRIPT
    else SHELL_SCRIPT_PREFIX + action
  }

  /** <installDir>/bin/<os>-<arch>/<binary>. */
  function ExecutablePath(installDir: Path, env: HostEnv, action: string): (r: Path)
    ensures var n := |installDir.names|;
      var os := NormaliseOs(env.osName);
      |r.names| == n + 3 && r.names[..n] == installDir.names &&
      r.names[n] == "bin" &&
      r.names[n + 1] == os + "-" + NormaliseArch(env.osArch) &&
      r.names[n + 2] == BinaryName(os, action)
  {
    var os := NormaliseOs(env.osName);
    var arch := NormaliseArch(env.osArch);
    Child(Child(Child(installDir, "bin"), os + "-" + arch), BinaryName(os, action))
  }

  /** getExecutable: the script's path when it exists and is executable, otherwise the failed check. */
  function Locate(installDir: Path, env: HostEnv, fs: FileSystem, action: string): (r: Result<Path, ExecError>)
    ensures r.Success? <==>
      ExecutablePath(installDir, env, action) in fs.existing &&
      ExecutablePath(installDir, env, action) in fs.executable
    ensures r.Success? ==> r.value == ExecutablePath(installDir, env, action)
    ensures ExecutablePath(installDir, env, action) !in fs.existing ==>
      r == Failure(Missing(ExecutablePath(installDir, env, action)))
    ensures (ExecutablePath(installDir, env, action) in fs.existing &&
             ExecutablePath(installDir, env, action) !in fs.executable) ==>
      r == Failure(NotExecutable(ExecutablePath(installDir, env, action)))
  {
    var exec := ExecutablePath(installDir, env, action);
    if exec !in fs.existing then Failure(Missing(exec))
    else if exec !in fs.executable then Failure(NotExecutable(exec))
    else Success(exec)
  }

  /** File.toString of a path: its names joined by the separator. */
  function PathString(p: Path, sep: char): string
  {
    Join(p.names, sep)
  }

  // ---------------------------------------------------------------------------
  // Properties of the resolution

  /**
   * An OS name is normalised to "windows" exactly when its lower-case form is
   * "windows" followed by characters none of which is a line terminator;
   * every other name is only lower-cased.
   */
  lemma NormaliseOsSpec(osName: string)
    ensures NormaliseOs(osName) == WINDOWS <==> WindowsFamily(Lower(osName))
    ensures !WindowsFamily(Lower(osName)) ==> NormaliseOs(osName) == Lower(osName)
  {
    LiteralDotStarMeans(Lower(osName), WINDOWS);
    if Lower(osName) == WINDOWS {
      assert WindowsFamily(Lower(osName));
    }
  }

  /** Normalising a normalised name changes nothing. */
  lemma NormaliseOsIdempotent(osName: string)
    ensures NormaliseOs(NormaliseOs(osName)) == NormaliseOs(osName)
  {
    var lower := Lower(osName);
    LowerIdempotent(osName);
    LiteralDotStarMeans(WINDOWS, WINDOWS);
    assert Lower(WINDOWS) == WINDOWS;
  }

  /** A versioned, upper-case Windows name collapses to "windows": it is lower-cased before matching. */
  lemma NormaliseWindowsUpperCase()
    ensures NormaliseOs("WINDOWS XP") == WINDOWS
  {
    var lower := Lower("WINDOWS XP");
    assert lower == "windows xp";
    LiteralDotStarMeans(lower, WINDOWS);
  }

  /** Any other name is lower-cased only. */
  lemma NormaliseLinux()
    ensures NormaliseOs("Linux") == "linux"
  {
    var lower := Lower("Linux");
    assert lower == "linux";
    LiteralDotStarMeans(lower, WINDOWS);
  }

  /** A line break after the prefix defeats "windows.*", so the name stays as it is, lower-cased. */
  lemma NormaliseWindowsLineBreak()
    ensures NormaliseOs("Windows\n10") == "windows\n10"
  {
    var lower := Lower("Windows\n10");
    assert lower == "windows\n10";
    LiteralDotStarMeans(lower, WINDOWS);
    assert IsLineTerminator(lower[7]);
  }

  /** The architecture becomes "x86-64" exactly for "amd64" (and "x86-64" itself); case variants pass through. */
  lemma NormaliseArchSpec(osArch: string)
    ensures NormaliseArch(osArch) == X86_64 <==> osArch == AMD64 || osArch == X86_64
    ensures osArch != AMD64 ==> NormaliseArch(osArch) == osArch
    ensures NormaliseArch("AMD64") == "AMD64"
  {
  }

  /** On Windows the script is one of three fixed names; every unknown action gets the sentinel. */
  lemma WindowsBinarySpec(action: string)
    ensures BinaryName(WINDOWS, action) in {WINDOWS_START_SCRIPT, WINDOWS_STOP_SCRIPT, WINDOWS_UNKNOWN_SCRIPT}
    ensures BinaryName(WINDOWS, action) == WINDOWS_START_SCRIPT <==> action == START_ACTION
    ensures BinaryName(WINDOWS, action) == WINDOWS_STOP_SCRIPT <==> action == STOP_ACTION
  {
  }

  /** Elsewhere the script's file name carries the action after "sonar.sh ", so it determines the action. */
  lemma ShellBinaryInjective(os: string, a1: string, a2: string)
    requires os != WINDOWS
    requires BinaryName(os, a1) == BinaryName(os, a2)
    ensures a1 == a2
  {
    var b1, b2 := BinaryName(os, a1), BinaryName(os, a2);
    assert a1 == b1[|SHELL_SCRIPT_PREFIX|..] == b2[|SHELL_SCRIPT_PREFIX|..] == a2;
  }

  lemma JoinThree(a: string, b: string, c: string, sep: char)
    ensures Join([a, b, c], sep) == a + [sep] + b + [sep] + c
  {
    assert [a, b, c][1..] == [b, c];
    assert [b, c][1..] == [c];
  }

  /** Joining a directory's names followed by three more names. */
  lemma JoinBelow(dir: seq<string>, a: string, b: string, c: string, sep: char)
    ensures Join(dir + [a, b, c], sep) ==
      (if dir == [] then "" else Join(dir, sep) + [sep]) + a + [sep] + b + [sep] + c
  {
    JoinThree(a, b, c, sep);
    if dir == [] {
      assert dir + [a, b, c] == [a, b, c];
    } else {
      JoinAppend(dir, [a, b, c], sep);
    }
  }

  /**
   * Rendered with a separator, the path is installDir/bin/<os>-<arch>/<binary>;
   * an installation directory with no names contributes nothing, not even a separator.
   */
  lemma ExecutablePathString(installDir: Path, env: HostEnv, action: string)
    ensures var os := NormaliseOs(env.osName);
      var sep := env.separator;
      PathString(ExecutablePath(installDir, env, action), sep) ==
        (if installDir.names == [] then "" else PathString(installDir, sep) + [sep]) +
        "bin" + [sep] + (os + "-" + NormaliseArch(env.osArch)) + [sep] + BinaryName(os, action)
  {
    var os := NormaliseOs(env.osName);
    assert ExecutablePath(installDir, env, action).names ==
      installDir.names + ["bin", os + "-" + NormaliseArch(env.osArch), BinaryName(os, action)];
    JoinBelow(installDir.names, "bin", os + "-" + NormaliseArch(env.osArch), BinaryName(os, action), env.separator);
  }

  /**
   * On Windows every action other than start and stop resolves to the sentinel
   * name, so it fails unless the directory really holds a file of that name.
   */
  lemma UnknownWindowsActionFails(installDir: Path, env: HostEnv, fs: FileSystem, action: string)
    requires NormaliseOs(env.osName) == WINDOWS
    requires action != START_ACTION && action != STOP_ACTION
    requires forall p :: p in fs.existing ==> p.names == [] || p.names[|p.names| - 1] != WINDOWS_UNKNOWN_SCRIPT
    ensures Locate(installDir, env, fs, action).Failure?
    ensures Locate(installDir, env, fs, action).error.Missing?
  {
    var p := ExecutablePath(installDir, env, action);
    assert p.names[|p.names| - 1] == WINDOWS_UNKNOWN_SCRIPT;
  }
}
