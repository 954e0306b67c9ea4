# SonarQube test fixture, modelled in Dafny

This project models the decision logic of the `SonarQube` test fixture of the
sonar-stash plugin. The fixture drives an installed SonarQube server for
integration tests. The model covers five parts:

- Resolving the control script (`getExecutable`). The OS name and architecture
  are normalised, a script is picked for the action, and
  `<installDir>/bin/<os>-<arch>/<binary>` is built. A missing or non-executable
  script is refused.
- The configuration table. The constructor stores the port in decimal and the
  host `127.0.0.1`; `getPort` parses the port back and `getHost` reads the host.
  The model proves the round trip of `String.valueOf(int)` and
  `Integer.parseInt`, including Java's sign and 32-bit range rules.
- Project creation (`createProject`). The request target is
  `/api/projects/create?key=<enc key>&name=<enc key>`, and the result is true
  exactly on status 200. A query parser shows that both parameters carry the key.
- The readiness wait (`waitForReady`). A loop consumes the outcomes of
  successive GETs. It stops at the first 200 and records one 5000 ms sleep
  after every earlier attempt.
- The order of steps in `startAsync` and `stop`. The configuration is written
  first, then the script is resolved and run in the installation directory.
  A nonzero exit code fails start; stop ignores it.

The environment enters as parameters:
- `HostEnv`: the `os.name`, `os.arch` and separator system properties.
- `FileSystem`: the sets of paths for which `File.exists` and
  `File.canExecute` hold.
- The URL encoder, as a function.
- The transport: a function from request target to `HttpOutcome`, or the
  sequence of outcomes for the readiness wait.
- Whether writing the configuration file succeeded, and the script's exit code.

Modules:
- `Wrappers`: `Result`, `Option`, `Outcome`.
- `Text`: ASCII lower case and joining path names.
- `Decimal`: Java's `int` and its decimal form.
- `Platform`: script resolution.
- `Config`: the properties table.
- `Http`: the outcome of one exchange.
- `Admin`: project creation.
- `Readiness`: the wait loop.
- `Lifecycle`: start and stop.
- `Fixture`: the `SonarQube` class, with its fields `installDir`, `config`
  and `process`.

In these details the model follows the code, which differs from what a reader might expect:
- The OS name matches Windows only when nothing after the `windows` prefix is
  a line terminator. The regular-expression `.` does not match `\n`, `\r`,
  U+0085, U+2028 or U+2029.
- `startAsync` keeps the launched process in the `process` field, even when
  the script then exits nonzero.
- `stop` does throw when the stop script is missing or not executable. Only
  its exit code is ignored.
- On non-Windows systems the script's file name is `"sonar.sh " + action`,
  one name with a space in it. It is not a script with the action as an
  argument.

## Model

| member | source | states |
|---|---|---|
| Platform.LiteralDotStarMeans | src/test/java/org/sonar/plugins/stash/fixtures/SonarQube.java:45 | `matches("windows.*")` holds exactly when the string starts with `windows` and no later character is a line terminator |
| Platform.NormaliseOsSpec | src/test/java/org/sonar/plugins/stash/fixtures/SonarQube.java:43-49 | the OS is `windows` exactly when the lower-cased name is in the Windows family; every other name is only lower-cased |
| Platform.NormaliseOs | src/test/java/org/sonar/plugins/stash/fixtures/SonarQube.java:43-49 | the normalised OS is either `windows` or the lower-cased name, and holds no upper-case letter |
| Platform.NormaliseOsIdempotent | src/test/java/org/sonar/plugins/stash/fixtures/SonarQube.java:43-49 | normalising a normalised OS name changes nothing |
| Platform.NormaliseWindowsUpperCase | src/test/java/org/sonar/plugins/stash/fixtures/SonarQube.java:44-46 | `WINDOWS XP` normalises to `windows`: the name is lower-cased before matching (in locales where `I` lower-cases to `i`) |
| Platform.NormaliseLinux | src/test/java/org/sonar/plugins/stash/fixtures/SonarQube.java:47-48 | `Linux` normalises to `linux` |
| Platform.NormaliseWindowsLineBreak | src/test/java/org/sonar/plugins/stash/fixtures/SonarQube.java:45-48 | a line break after the prefix defeats the match: `Windows\n10` becomes `windows\n10` |
| Platform.NormaliseArchSpec | src/test/java/org/sonar/plugins/stash/fixtures/SonarQube.java:51-54 | the architecture becomes `x86-64` exactly for `amd64` (or `x86-64` itself); every other string, `AMD64` included, passes through |
| Platform.NormaliseArch | src/test/java/org/sonar/plugins/stash/fixtures/SonarQube.java:51-54 | the normalised architecture is never `amd64`, and any other input is kept as it is |
| Platform.WindowsBinarySpec | src/test/java/org/sonar/plugins/stash/fixtures/SonarQube.java:57-64 | on Windows the script is one of three names: `StartSonar.bat` exactly for `start`, `StopNTService.bat` exactly for `stop`, `unknown_action.cmd` otherwise |
| Platform.BinaryName | src/test/java/org/sonar/plugins/stash/fixtures/SonarQube.java:56-67 | on Windows the script is one of the three fixed names; elsewhere it is `sonar.sh ` (space included) followed by the action, as one file name |
| Platform.ShellBinaryInjective | src/test/java/org/sonar/plugins/stash/fixtures/SonarQube.java:65-67 | elsewhere different actions give different script names |
| Platform.ExecutablePath | src/test/java/org/sonar/plugins/stash/fixtures/SonarQube.java:69 | the path is the install directory followed by `bin`, `<os>-<arch>` and the script name, three names deeper |
| Platform.Locate | src/test/java/org/sonar/plugins/stash/fixtures/SonarQube.java:42-78 | resolution succeeds exactly when the built path exists and is executable, and then yields that path; a missing path and a non-executable path are each refused |
| Platform.ExecutablePathString | src/test/java/org/sonar/plugins/stash/fixtures/SonarQube.java:69-77 | rendered with the separator, the path is `installDir/bin/<os>-<arch>/<binary>`; an install directory with no names renders as `bin/<os>-<arch>/<binary>` |
| Platform.UnknownWindowsActionFails | src/test/java/org/sonar/plugins/stash/fixtures/SonarQube.java:62-73 | on Windows an action other than start and stop fails as missing, unless a file named `unknown_action.cmd` exists |
| Fixture.SonarQube.GetExecutable | src/test/java/org/sonar/plugins/stash/fixtures/SonarQube.java:42-78 | returns the path string exactly when resolution succeeds, and that string is `installDir/bin/<os>-<arch>/<binary>`; otherwise it returns the failed check |
| Text.Lower | src/test/java/org/sonar/plugins/stash/fixtures/SonarQube.java:45-48 | lower-casing keeps the length, maps each character, and leaves no upper-case letter |
| Decimal.Show | src/test/java/org/sonar/plugins/stash/fixtures/SonarQube.java:29 | `String.valueOf(int)` is never empty and starts with `-` exactly for negative numbers |
| Decimal.ShowNat | src/test/java/org/sonar/plugins/stash/fixtures/SonarQube.java:29 | the digits of a magnitude are non-empty decimal digits with no leading zero |
| Decimal.ParseInt | src/test/java/org/sonar/plugins/stash/fixtures/SonarQube.java:34 | `Integer.parseInt` fails on the empty string and on any non-digit after the first character, a success ends with a digit, and only a leading `-` gives a negative value |
| Decimal.ParseShow | src/test/java/org/sonar/plugins/stash/fixtures/SonarQube.java:29-34 | `Integer.parseInt(String.valueOf(n))` gives back `n` for every 32-bit `n` |
| Decimal.ShowInjective | src/test/java/org/sonar/plugins/stash/fixtures/SonarQube.java:29 | two ports with the same decimal text are equal |
| Decimal.ParseAcceptsLeadingZero | src/test/java/org/sonar/plugins/stash/fixtures/SonarQube.java:34 | `parseInt` also accepts a leading zero, so it is not the exact inverse of `valueOf` |
| Decimal.ParseAcceptsPlusSign | src/test/java/org/sonar/plugins/stash/fixtures/SonarQube.java:34 | `parseInt` accepts an explicit `+` |
| Decimal.ParseRejects | src/test/java/org/sonar/plugins/stash/fixtures/SonarQube.java:34 | `parseInt` refuses the empty string, a lone sign, a trailing space and 2147483648 |
| Decimal.ParseMinValue | src/test/java/org/sonar/plugins/stash/fixtures/SonarQube.java:34 | `parseInt` accepts -2147483648 |
| Config.Defaults | src/test/java/org/sonar/plugins/stash/fixtures/SonarQube.java:23-31 | the constructed table holds exactly the port and host keys |
| Config.DefaultsRoundTrip | src/test/java/org/sonar/plugins/stash/fixtures/SonarQube.java:27-39 | after construction `getPort` returns the given port and `getHost` returns `127.0.0.1` |
| Config.PortOf | src/test/java/org/sonar/plugins/stash/fixtures/SonarQube.java:33-35 | `getPort` throws when the port property is missing, empty or holds a non-digit after its first character, and returns `n` whenever the property is the decimal text of `n` |
| Config.HostOf | src/test/java/org/sonar/plugins/stash/fixtures/SonarQube.java:37-39 | `getHost` returns null exactly when the host property is unset, and its value otherwise |
| Config.OtherPropertyKeepsPortAndHost | src/test/java/org/sonar/plugins/stash/fixtures/SonarQube.java:33-39 | setting any other property leaves `getPort` and `getHost` unchanged |
| Fixture.SonarQube.constructor | src/test/java/org/sonar/plugins/stash/fixtures/SonarQube.java:27-39 | stores the install directory and the default table; `GetPort()` is the given port and `GetHost()` is `127.0.0.1` |
| Fixture.SonarQube.SetProperty | src/test/java/org/sonar/plugins/stash/fixtures/SonarQube.java:84-86 | the shared table gains the key; the port and host read as before unless their own key was set |
| Admin.CreateTarget | src/test/java/org/sonar/plugins/stash/fixtures/SonarQube.java:153-158 | read back, the target has path `/api/projects/create` and exactly the parameters `key` and `name`, both equal to the encoded key |
| Admin.CreateProjectResult | src/test/java/org/sonar/plugins/stash/fixtures/SonarQube.java:159-162 | a transport failure throws; a response gives true exactly when its status is 200 |
| Admin.CreateProject | src/test/java/org/sonar/plugins/stash/fixtures/SonarQube.java:152-162 | the call throws exactly when sending the create target fails in transport, and otherwise returns true exactly on status 200 |
| Admin.NameIsIgnored | src/test/java/org/sonar/plugins/stash/fixtures/SonarQube.java:152-162 | the request target and the result do not depend on the `name` argument |
| Admin.CreateProjectExample | src/test/java/org/sonar/plugins/stash/fixtures/SonarQube.java:153-158 | with key `my project` the target is `/api/projects/create?key=my+project&name=my+project` |
| Readiness.FirstReady | src/test/java/org/sonar/plugins/stash/fixtures/SonarQube.java:132-134 | the index of the first outcome that is a response with status 200 |
| Readiness.WaitForReady | src/test/java/org/sonar/plugins/stash/fixtures/SonarQube.java:122-142 | attempts run up to and including the first 200 and no further; one 5000 ms sleep follows every earlier attempt |
| Readiness.ColdStartExample | src/test/java/org/sonar/plugins/stash/fixtures/SonarQube.java:122-142 | two refused connections, a 503 and a 200 make four attempts and three sleeps |
| Readiness.LaterOutcomesIrrelevant | src/test/java/org/sonar/plugins/stash/fixtures/SonarQube.java:132-134 | outcomes after the first 200 do not change where the wait stops |
| Lifecycle.Start | src/test/java/org/sonar/plugins/stash/fixtures/SonarQube.java:96-105 | the start script runs in the install directory only after the configuration was written and the script resolved; a failed write, an unresolvable script and a nonzero exit each give their own error; start succeeds exactly when the script ran and exited with 0 |
| Lifecycle.NoLaunchWithoutConfig | src/test/java/org/sonar/plugins/stash/fixtures/SonarQube.java:96-98 | a failed configuration write ends start before any script runs |
| Lifecycle.StartSuccess | src/test/java/org/sonar/plugins/stash/fixtures/SonarQube.java:96-105 | a successful start implies the write succeeded, the script exists and is executable, and it exited with 0 |
| Lifecycle.Stop | src/test/java/org/sonar/plugins/stash/fixtures/SonarQube.java:107-111 | stop runs the stop script in the install directory and fails exactly when the script cannot be resolved |
| Lifecycle.StopIgnoresExitCode | src/test/java/org/sonar/plugins/stash/fixtures/SonarQube.java:107-111 | stop behaves the same whatever the script's exit code |
| Fixture.SonarQube.StartAsync | src/test/java/org/sonar/plugins/stash/fixtures/SonarQube.java:96-105 | returns the start outcome; the process field holds the launched script whenever one was launched, and is unchanged otherwise |
| Fixture.SonarQube.Stop | src/test/java/org/sonar/plugins/stash/fixtures/SonarQube.java:107-111 | succeeds exactly when the stop script resolves; otherwise returns the failed check |

## Left out

- Process plumbing is not modelled: `ProcessBuilder`, `inheritIO` and `waitFor`. The script's exit code is an input. An `IOException` from launching the process is not modelled.
- `writeConfig` is not modelled: the `Properties.store` format, and deleting and writing `conf/sonar.properties`. Whether the write succeeded is an input to start.
- `installPlugin` is not modelled. It only checks that the file exists and then calls a library copy.
- `getUrl` is not modelled: `java.net.URL` construction, host validation and the null result on `MalformedURLException`. Project creation and the readiness wait take the transport's answers directly, so a failure inside `getUrl` is not captured.
- `URLEncoder.encode` is a function parameter. The query read-back assumes only that its output holds no `&`, `=` or `?`, which form encoding guarantees.
- `AsyncHttpClient`, `HttpURLConnection` and `Thread.sleep` are not modelled. The sleeps are recorded, not performed. An interrupted sleep, which the source ignores, is treated as a full sleep.
- The progress messages printed by `waitForReady` are not modelled.
- Readiness.WaitForReady: it requires a 200 somewhere in the outcome sequence. The source never returns when the server never answers 200.
- Text.Lower: only ASCII letters are lower-cased, as in locales where `I` lower-cases to `i`. Under a Turkish or Azerbaijani default locale `String.toLowerCase` turns `I` into `ı` (U+0131), so `WINDOWS XP` becomes `wındows xp`, fails the `windows.*` match and is used as the OS name. Other non-ASCII characters, and the length of the string, can change too.
- Decimal.ParseInt: only ASCII digits are accepted. `Character.digit` also accepts other Unicode decimal digits.
- Platform.Child: appends one name. `Path.resolve` also splits a name on separators and handles absolute names.
- `setUp` does nothing in the source and is not modelled.
