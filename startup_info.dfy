/**
 * The configuration records a server is built from, and the server's private
 * copy of them (`ServerStartupInfo`). The record layouts live in headers that
 * are not part of this model; only the fields the server code reads are kept.
 */
module StartupInfo {

  /** `uint16_t`: the width `serverGetRouterId` returns and the width of the
      worker loop counter compared against `workersCount`. */
  type u16 = x: int | 0 <= x < 0x1_0000

  datatype RouterStartupInfo = RouterStartupInfo(routerId: u16, ip: string, port: int, workersCount: u16)

  datatype MySQLStartupInfo = MySQLStartupInfo(hostname: string, user: string, password: string, database: string)

  datatype RedisStartupInfo = RedisStartupInfo(hostname: string, port: int)

  /** One worker's configuration: its database and cache credentials and the
      address of the global server it reports to. */
  datatype WorkerStartupInfo = WorkerStartupInfo(
    sqlInfo: MySQLStartupInfo,
    redisInfo: RedisStartupInfo,
    globalServerIp: string,
    globalServerPort: int)

  /** `count` records can be read from `a` (a NULL array holds none). */
  predicate Covers(a: array?<WorkerStartupInfo>, count: nat) {
    count == 0 || (a != null && count <= a.Length)
  }

  /** The first `count` records of `a`. */
  function Records(a: array?<WorkerStartupInfo>, count: nat): (records: seq<WorkerStartupInfo>)
    reads a
    requires Covers(a, count)
  {
    if count == 0 then [] else a[..count]
  }

  /**
   * `ServerStartupInfo`: what a server is started with. The caller's
   * configuration and the server's private copy are both objects of this class.
   * `output` is a `char *`, so it is kept as a reference to a character buffer.
   */
  class ServerStartupInfo {
    var serverType: int
    var routerInfo: RouterStartupInfo
    var workersInfo: array?<WorkerStartupInfo>
    var workersInfoCount: nat
    var output: array?<char>

    /** The all-zero record a `calloc`ed server starts with. */
    constructor Zeroed()
      ensures serverType == 0 && routerInfo == RouterStartupInfo(0, [], 0, 0)
      ensures workersInfo == null && workersInfoCount == 0 && output == null
    {
      serverType := 0;
      routerInfo := RouterStartupInfo(0, [], 0, 0);
      workersInfo := null;
      workersInfoCount := 0;
      output := null;
    }

    /**
     * serverStartupInfoInit: the router record and the first `workersInfoCount`
     * worker records are copied by value into a freshly allocated array; the
     * server type and count are set; `output` is copied as a pointer, so the
     * copy shares the caller's buffer. Always reports success.
     */
    method Init(serverType: int, routerInfo: RouterStartupInfo, workersInfo: array?<WorkerStartupInfo>,
                workersInfoCount: nat, output: array?<char>) returns (ok: bool)
      requires Covers(workersInfo, workersInfoCount)
      modifies this
      ensures ok
      ensures this.routerInfo == routerInfo
      ensures this.workersInfo != null && fresh(this.workersInfo)
      ensures this.workersInfo[..] == Records(workersInfo, workersInfoCount)
      ensures this.serverType == serverType && this.workersInfoCount == workersInfoCount
      ensures this.output == output
    {
      this.routerInfo := routerInfo;

      var copy := new WorkerStartupInfo[workersInfoCount];
      var i := 0;
      while i < workersInfoCount
        invariant 0 <= i <= workersInfoCount
        invariant workersInfo != null ==> copy[..i] == workersInfo[..i]
        invariant this.routerInfo == routerInfo
      {
        copy[i] := workersInfo[i];
        i := i + 1;
      }
      assert workersInfoCount > 0 ==> copy[..] == copy[..workersInfoCount];
      this.workersInfo := copy;

      this.serverType := serverType;
      this.workersInfoCount := workersInfoCount;
      this.output := output;
      ok := true;
    }
  }
}
