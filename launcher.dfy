/**
 * serverCreateProcess: the argument list a server passes to a sibling server
 * executable. Two formats build one space-separated command line from the
 * startup info and the first worker's record; on POSIX it is split back on
 * ' ' into the argument vector given to `execv`, on Windows the string goes to
 * `CreateProcess` as it is. The process creation itself is not modelled.
 */
module Launcher {
  import opened Wrappers
  import opened Text
  import opened StartupInfo

  datatype Platform = Posix | Win32

  /** What is handed to the platform's process-creation call. */
  datatype Launch =
    | PosixExec(path: string, argv: seq<string>)
    | WinCreateProcess(application: string, commandLine: string)

  /** The executable name; on Windows `.exe` is appended. */
  function ExecutableName(exe: string, platform: Platform): (name: string) {
    if platform == Win32 then exe + ".exe" else exe
  }

  /** The conversions of the first format, `"%s %d %s %d"`. */
  function HeadFields(exe: string, platform: Platform, router: RouterStartupInfo): (fields: seq<string>) {
    [ExecutableName(exe, platform), FormatInt(router.routerId), router.ip, FormatInt(router.port)]
  }

  /** The conversions of the second format after its leading `%s`. */
  function TailFields(serverType: int, router: RouterStartupInfo, first: WorkerStartupInfo,
                      output: string): (fields: seq<string>) {
    [FormatInt(router.workersCount),
     first.globalServerIp, FormatInt(first.globalServerPort),
     first.sqlInfo.hostname, first.sqlInfo.user, first.sqlInfo.password, first.sqlInfo.database,
     first.redisInfo.hostname, FormatInt(first.redisInfo.port),
     FormatInt(serverType),
     output]
  }

  /** The 15 arguments, in the order the sibling executable reads them. */
  function LaunchTokens(exe: string, platform: Platform, serverType: int, router: RouterStartupInfo,
                        first: WorkerStartupInfo, output: string): (tokens: seq<string>) {
    HeadFields(exe, platform, router) + TailFields(serverType, router, first, output)
  }

  /** The command line as the two formats produce it: the first format's output
      is the leading `%s` of the second. */
  function CommandLine(exe: string, platform: Platform, serverType: int, router: RouterStartupInfo,
                       first: WorkerStartupInfo, output: string): (line: string) {
    Join([Join(HeadFields(exe, platform, router), ' ')] + TailFields(serverType, router, first, output), ' ')
  }

  function LaunchFor(exe: string, platform: Platform, serverType: int, router: RouterStartupInfo,
                     first: WorkerStartupInfo, output: string): (launch: Launch) {
    var cmd := CommandLine(exe, platform, serverType, router, first, output);
    if platform == Posix then PosixExec(exe, Split(cmd, ' '))
    else WinCreateProcess(ExecutableName(exe, platform), cmd)
  }

  /** Every string field printed with `%s` survives a split on ' ' unchanged. */
  predicate FieldsAreTokens(exe: string, router: RouterStartupInfo, first: WorkerStartupInfo, output: string) {
    && IsToken(exe, ' ') && IsToken(router.ip, ' ') && IsToken(first.globalServerIp, ' ')
    && IsToken(first.sqlInfo.hostname, ' ') && IsToken(first.sqlInfo.user, ' ')
    && IsToken(first.sqlInfo.password, ' ') && IsToken(first.sqlInfo.database, ' ')
    && IsToken(first.redisInfo.hostname, ' ') && IsToken(output, ' ')
  }

  /** What the sibling executable learns from its arguments. */
  datatype LaunchArgs = LaunchArgs(
    executable: string,
    router: RouterStartupInfo,
    globalServerIp: string,
    globalServerPort: int,
    sqlInfo: MySQLStartupInfo,
    redisInfo: RedisStartupInfo,
    serverType: int,
    output: string)

  /** Reads an argument vector positionally, as the receiving executable does:
      exactly 15 arguments, numbers where `%d` was printed. */
  function DecodeLaunchArgs(argv: seq<string>): (args: Option<LaunchArgs>) {
    if |argv| != 15 then None
    else match (ParseInt(argv[1]), ParseInt(argv[3]), ParseInt(argv[4]), ParseInt(argv[6]), ParseInt(argv[12]), ParseInt(argv[13]))
      case (Some(id), Some(port), Some(count), Some(globalPort), Some(redisPort), Some(serverType)) =>
        if 0 <= id < 0x1_0000 && 0 <= count < 0x1_0000 then
          Some(LaunchArgs(
            argv[0],
            RouterStartupInfo(id, argv[2], port, count),
            argv[5], globalPort,
            MySQLStartupInfo(argv[7], argv[8], argv[9], argv[10]),
            RedisStartupInfo(argv[11], redisPort),
            serverType,
            argv[14]))
        else None
      case _ => None
  }

  /** The command line is the 15 tokens joined by single spaces. */
  lemma CommandLineIsJoin(exe: string, platform: Platform, serverType: int, router: RouterStartupInfo,
                          first: WorkerStartupInfo, output: string)
    ensures |LaunchTokens(exe, platform, serverType, router, first, output)| == 15
    ensures CommandLine(exe, platform, serverType, router, first, output)
         == Join(LaunchTokens(exe, platform, serverType, router, first, output), ' ')
  {
    JoinNested(HeadFields(exe, platform, router), TailFields(serverType, router, first, output), ' ');
  }

  /** Splitting the command line on ' ' returns its non-empty tokens whenever no
      field contains a space. */
  lemma SplitCommandLine(exe: string, platform: Platform, serverType: int, router: RouterStartupInfo,
                         first: WorkerStartupInfo, output: string)
    requires forall i :: 0 <= i < 15 ==> ' ' !in LaunchTokens(exe, platform, serverType, router, first, output)[i]
    ensures Split(CommandLine(exe, platform, serverType, router, first, output), ' ')
         == NonEmpty(LaunchTokens(exe, platform, serverType, router, first, output))
  {
    CommandLineIsJoin(exe, platform, serverType, router, first, output);
    SplitJoin(LaunchTokens(exe, platform, serverType, router, first, output), ' ');
  }

  /** When every string field is non-empty and holds no space, the split
      command line is exactly the 15 tokens. */
  lemma ArgvRoundTrip(exe: string, platform: Platform, serverType: int, router: RouterStartupInfo,
                      first: WorkerStartupInfo, output: string)
    requires FieldsAreTokens(exe, router, first, output)
    ensures Split(CommandLine(exe, platform, serverType, router, first, output), ' ')
         == LaunchTokens(exe, platform, serverType, router, first, output)
  {
    var ts := LaunchTokens(exe, platform, serverType, router, first, output);
    assert ' ' !in ".exe";
    assert IsToken(ExecutableName(exe, platform), ' ');
    CommandLineIsJoin(exe, platform, serverType, router, first, output);
    SplitJoinRoundTrip(ts, ' ');
  }

  /**
   * The sibling executable receives the router identity, address, port and
   * worker count unchanged, and the global-server address, SQL and redis
   * credentials of worker record 0, whatever the worker count, followed by the
   * server type and the output path.
   */
  lemma LaunchRoundTrip(exe: string, platform: Platform, serverType: int, router: RouterStartupInfo,
                        first: WorkerStartupInfo, output: string)
    requires FieldsAreTokens(exe, router, first, output)
    ensures DecodeLaunchArgs(Split(CommandLine(exe, platform, serverType, router, first, output), ' '))
         == Some(LaunchArgs(ExecutableName(exe, platform), router, first.globalServerIp, first.globalServerPort,
                            first.sqlInfo, first.redisInfo, serverType, output))
  {
    ArgvRoundTrip(exe, platform, serverType, router, first, output);
    FormatIntRoundTrip(router.routerId);
    FormatIntRoundTrip(router.port);
    FormatIntRoundTrip(router.workersCount);
    FormatIntRoundTrip(first.globalServerPort);
    FormatIntRoundTrip(first.redisInfo.port);
    FormatIntRoundTrip(serverType);
  }

  /**
   * An empty string field (an empty SQL password, say) is not an argument at
   * all after the split: the vector is shorter than 15 and the receiver cannot
   * read it.
   */
  lemma EmptyFieldMisalignsArgv(exe: string, platform: Platform, serverType: int, router: RouterStartupInfo,
                                first: WorkerStartupInfo, output: string, k: nat)
    requires forall i :: 0 <= i < 15 ==> ' ' !in LaunchTokens(exe, platform, serverType, router, first, output)[i]
    requires k < 15 && LaunchTokens(exe, platform, serverType, router, first, output)[k] == []
    ensures |Split(CommandLine(exe, platform, serverType, router, first, output), ' ')| < 15
    ensures DecodeLaunchArgs(Split(CommandLine(exe, platform, serverType, router, first, output), ' ')) == None
  {
    SplitCommandLine(exe, platform, serverType, router, first, output);
    NonEmptyShorter(LaunchTokens(exe, platform, serverType, router, first, output), k);
  }

  /**
   * When field k is the only empty one, the vector is the other 14 tokens in
   * order: every argument after it arrives one place early.
   */
  lemma EmptyFieldShiftsArgv(exe: string, platform: Platform, serverType: int, router: RouterStartupInfo,
                             first: WorkerStartupInfo, output: string, k: nat)
    requires forall i :: 0 <= i < 15 ==> ' ' !in LaunchTokens(exe, platform, serverType, router, first, output)[i]
    requires k < 15 && LaunchTokens(exe, platform, serverType, router, first, output)[k] == []
    requires forall i :: 0 <= i < 15 && i != k ==> LaunchTokens(exe, platform, serverType, router, first, output)[i] != []
    ensures Split(CommandLine(exe, platform, serverType, router, first, output), ' ')
         == LaunchTokens(exe, platform, serverType, router, first, output)[..k]
          + LaunchTokens(exe, platform, serverType, router, first, output)[k + 1..]
  {
    var ts := LaunchTokens(exe, platform, serverType, router, first, output);
    SplitCommandLine(exe, platform, serverType, router, first, output);
    NonEmptyDropsOne(ts, k, ' ');
  }

  /**
   * A string field that holds a space (an ip or password with a space in it)
   * cannot come through the split as one argument: the vector handed to
   * `execv` is not the 15 tokens.
   */
  lemma SpaceBreaksArgv(exe: string, platform: Platform, serverType: int, router: RouterStartupInfo,
                        first: WorkerStartupInfo, output: string, k: nat)
    requires k < 15 && ' ' in LaunchTokens(exe, platform, serverType, router, first, output)[k]
    ensures Split(CommandLine(exe, platform, serverType, router, first, output), ' ')
         != LaunchTokens(exe, platform, serverType, router, first, output)
  {
    var argv := Split(CommandLine(exe, platform, serverType, router, first, output), ' ');
    SplitFromNoSep(CommandLine(exe, platform, serverType, router, first, output), ' ', []);
    CommandLineIsJoin(exe, platform, serverType, router, first, output);
    if |argv| == 15 {
      assert ' ' !in argv[k];
    }
  }

  /**
   * serverCreateProcess up to the process-creation call: the fields come from
   * the startup info and from worker record 0 only; on POSIX the argument
   * vector is the split command line, which is the 15 tokens when every string
   * field is a token.
   */
  method CreateProcess(info: ServerStartupInfo, exe: string, platform: Platform) returns (launch: Launch)
    requires info.workersInfo != null && info.workersInfo.Length > 0 && info.output != null
    ensures launch == LaunchFor(exe, platform, info.serverType, info.routerInfo, info.workersInfo[0], info.output[..])
    ensures launch.PosixExec? <==> platform == Posix
    ensures platform == Posix && FieldsAreTokens(exe, info.routerInfo, info.workersInfo[0], info.output[..]) ==>
      launch.argv == LaunchTokens(exe, Posix, info.serverType, info.routerInfo, info.workersInfo[0], info.output[..])
  {
    var first := info.workersInfo[0];
    var output := info.output[..];
    var commandLine := Join(HeadFields(exe, platform, info.routerInfo), ' ');
    commandLine := Join([commandLine] + TailFields(info.serverType, info.routerInfo, first, output), ' ');
    if platform == Posix {
      launch := PosixExec(exe, Split(commandLine, ' '));
      if FieldsAreTokens(exe, info.routerInfo, first, output) {
        ArgvRoundTrip(exe, Posix, info.serverType, info.routerInfo, first, output);
      }
    } else {
      launch := WinCreateProcess(ExecutableName(exe, platform), commandLine);
    }
  }
}
